/**
 * The application shell: the gallery list, its caption reconciliation and its
 * persistence flag. Pure list transforms first, then the stateful store.
 */
module App {
  import opened Types

  /** Caption given to a new print while its description is pending. */
  const Developing: string := "正在显影..."
  /** Caption given when the description service throws. */
  const FallbackCaption: string := "美好的一刻"

  // ---------------------------------------------------------------------------
  // Whitespace trimming, as String.prototype.trim does it
  // ---------------------------------------------------------------------------

  /** ECMAScript WhiteSpace and LineTerminator code points. */
  predicate IsWhite(c: char) {
    c in {'\t', '\n', '\U{000B}', '\U{000C}', '\r', ' ', '\U{00A0}', '\U{1680}',
          '\U{2000}', '\U{2001}', '\U{2002}', '\U{2003}', '\U{2004}', '\U{2005}',
          '\U{2006}', '\U{2007}', '\U{2008}', '\U{2009}', '\U{200A}', '\U{2028}',
          '\U{2029}', '\U{202F}', '\U{205F}', '\U{3000}', '\U{FEFF}'}
  }

  predicate AllWhite(s: string) {
    forall k :: 0 <= k < |s| ==> IsWhite(s[k])
  }

  /** Drops leading white space: the result is the suffix after the leading white run. */
  function TrimStart(s: string): (t: string)
    ensures |t| <= |s| && t == s[|s| - |t|..]
    ensures AllWhite(s[..|s| - |t|])
    ensures t != [] ==> !IsWhite(t[0])
  {
    if s != [] && IsWhite(s[0]) then TrimStart(s[1..]) else s
  }

  /** Drops trailing white space: the result is the prefix before the trailing white run. */
  function TrimEnd(s: string): (t: string)
    ensures |t| <= |s| && t == s[..|t|]
    ensures AllWhite(s[|t|..])
    ensures t != [] ==> !IsWhite(t[|t| - 1])
  {
    if s != [] && IsWhite(s[|s| - 1]) then TrimEnd(s[..|s| - 1]) else s
  }

  function Trim(s: string): (t: string)
    ensures t != [] ==> !IsWhite(t[0]) && !IsWhite(t[|t| - 1])
  {
    TrimEnd(TrimStart(s))
  }

  lemma {:induction false} TrimStartPadded(pad: string, rest: string)
    requires AllWhite(pad)
    requires rest != [] ==> !IsWhite(rest[0])
    ensures TrimStart(pad + rest) == rest
    decreases |pad|
  {
    if pad != [] {
      assert (pad + rest)[1..] == pad[1..] + rest;
      TrimStartPadded(pad[1..], rest);
    }
  }

  lemma {:induction false} TrimEndPadded(rest: string, pad: string)
    requires AllWhite(pad)
    requires rest != [] ==> !IsWhite(rest[|rest| - 1])
    ensures TrimEnd(rest + pad) == rest
    decreases |pad|
  {
    if pad != [] {
      assert (rest + pad)[..|rest + pad| - 1] == rest + pad[..|pad| - 1];
      TrimEndPadded(rest, pad[..|pad| - 1]);
    }
  }

  /**
   * Trim as a reference definition: a core that neither starts nor ends with
   * white space, padded on both sides with white space, trims to that core.
   */
  lemma TrimPadded(before: string, core: string, after: string)
    requires AllWhite(before) && AllWhite(after)
    requires core != [] ==> !IsWhite(core[0]) && !IsWhite(core[|core| - 1])
    ensures Trim(before + core + after) == core
  {
    assert before + core + after == before + (core + after);
    if core == [] {
      assert AllWhite(core + after);
      TrimStartPadded(before + core + after, []);
      assert before + core + after + [] == before + core + after;
    } else {
      TrimStartPadded(before, core + after);
    }
    TrimEndPadded(core, after);
  }

  /** A text trims to nothing exactly when it is all white space. */
  lemma TrimBlank(s: string)
    ensures Trim(s) == [] <==> AllWhite(s)
  {
    var u := TrimStart(s);
    if AllWhite(s) {
      TrimPadded(s, [], []);
      assert s + [] + [] == s;
    }
    if Trim(s) == [] {
      assert AllWhite(u[0..]);
      assert u == [];
      assert s[..|s|] == s;
    }
  }

  /** Trimming twice is trimming once. */
  lemma TrimIdempotent(s: string)
    ensures Trim(Trim(s)) == Trim(s)
  {
    var t := Trim(s);
    TrimPadded([], t, []);
    assert [] + t + [] == t;
  }

  // ---------------------------------------------------------------------------
  // The base64 payload sent to the description service
  // ---------------------------------------------------------------------------

  const PngPrefix: string := "data:image/png;base64,"
  const JpegPrefix: string := "data:image/jpeg;base64,"
  const JpgPrefix: string := "data:image/jpg;base64,"

  predicate HasImagePrefix(s: string) {
    PngPrefix <= s || JpegPrefix <= s || JpgPrefix <= s
  }

  /** Removes one leading `data:image/(png|jpeg|jpg);base64,` header, if there is one. */
  function StripDataUrlPrefix(s: string): (r: string)
    ensures |r| <= |s| && r == s[|s| - |r|..]
    ensures !HasImagePrefix(s) ==> r == s
    ensures HasImagePrefix(s) ==> s[..|s| - |r|] in {PngPrefix, JpegPrefix, JpgPrefix}
  {
    if PngPrefix <= s then assert s[..|PngPrefix|] == PngPrefix; s[|PngPrefix|..]
    else if JpegPrefix <= s then assert s[..|JpegPrefix|] == JpegPrefix; s[|JpegPrefix|..]
    else if JpgPrefix <= s then assert s[..|JpgPrefix|] == JpgPrefix; s[|JpgPrefix|..]
    else s
  }

  /** The header is removed exactly once: whatever follows it is kept as is, even another header. */
  lemma StripPrepended(header: string, payload: string)
    requires header in {PngPrefix, JpegPrefix, JpgPrefix}
    ensures StripDataUrlPrefix(header + payload) == payload
  {
    var s := header + payload;
    assert header <= s;
    if header == JpegPrefix {
      assert s[11] == 'j';
      assert !(PngPrefix <= s);
    } else if header == JpgPrefix {
      assert s[11] == 'j' && s[13] == 'g';
      assert !(PngPrefix <= s) && !(JpegPrefix <= s);
    }
  }

  // ---------------------------------------------------------------------------
  // Gallery list transforms
  // ---------------------------------------------------------------------------

  /** The tilt of a new print from a uniform draw in [0, 1). */
  function Tilt(draw: real): (degrees: real)
    requires 0.0 <= draw < 1.0
    ensures -3.0 <= degrees < 3.0
  {
    draw * 6.0 - 3.0
  }

  /** The entry created for a freshly delivered still. */
  function NewPhoto(id: string, dataUrl: string, timestamp: string, draw: real): (p: Photo)
    requires 0.0 <= draw < 1.0
    ensures p.id == id && p.dataUrl == dataUrl && p.timestamp == timestamp
    ensures p.caption == Developing && -3.0 <= p.rotation < 3.0
  {
    Photo(id, dataUrl, timestamp, Developing, Tilt(draw))
  }

  /** Every entry whose id matches is dropped; the others keep their relative order. */
  function RemoveById(photos: seq<Photo>, id: string): (r: seq<Photo>)
    ensures |r| <= |photos|
    ensures forall p :: p in r <==> p in photos && p.id != id
    ensures (forall k :: 0 <= k < |photos| ==> photos[k].id != id) ==> r == photos
  {
    if photos == [] then []
    else
      assert photos == [photos[0]] + photos[1..];
      if photos[0].id == id then RemoveById(photos[1..], id)
      else [photos[0]] + RemoveById(photos[1..], id)
  }

  /** Deletion keeps every other entry as often as it occurred and drops every matching one. */
  lemma {:induction false} RemoveCounts(photos: seq<Photo>, id: string, p: Photo)
    ensures multiset(RemoveById(photos, id))[p] == if p.id == id then 0 else multiset(photos)[p]
  {
    if photos != [] {
      assert photos == [photos[0]] + photos[1..];
      RemoveCounts(photos[1..], id, p);
    }
  }

  /** Deletion works piecewise over a concatenation, so relative order is kept. */
  lemma {:induction false} RemoveConcat(a: seq<Photo>, b: seq<Photo>, id: string)
    ensures RemoveById(a + b, id) == RemoveById(a, id) + RemoveById(b, id)
  {
    if a != [] {
      var ab := a + b;
      assert ab[0] == a[0] && ab[1..] == a[1..] + b;
      RemoveConcat(a[1..], b, id);
      var rest := RemoveById(a[1..], id) + RemoveById(b, id);
      if a[0].id == id {
        assert RemoveById(ab, id) == RemoveById(ab[1..], id);
        assert RemoveById(a, id) == RemoveById(a[1..], id);
      } else {
        assert RemoveById(ab, id) == [a[0]] + RemoveById(ab[1..], id);
        assert RemoveById(a, id) == [a[0]] + RemoveById(a[1..], id);
      }
    } else {
      assert a + b == b;
    }
  }

  /** Only the caption of matching entries changes; length, order and other fields stay. */
  function PatchCaption(photos: seq<Photo>, id: string, caption: string): (r: seq<Photo>)
    ensures |r| == |photos|
    ensures forall k :: 0 <= k < |photos| ==>
      r[k] == if photos[k].id == id then photos[k].(caption := caption) else photos[k]
  {
    if photos == [] then []
    else
      var head := if photos[0].id == id then photos[0].(caption := caption) else photos[0];
      [head] + PatchCaption(photos[1..], id, caption)
  }

  /** A late caption for a deleted print changes nothing: deletion wins the race. */
  lemma PatchAfterRemove(photos: seq<Photo>, id: string, caption: string)
    ensures PatchCaption(RemoveById(photos, id), id, caption) == RemoveById(photos, id)
  {
  }

  /** Patching a caption and then deleting is the same as deleting. */
  lemma {:induction false} RemoveAfterPatch(photos: seq<Photo>, id: string, caption: string)
    ensures RemoveById(PatchCaption(photos, id, caption), id) == RemoveById(photos, id)
  {
    if photos != [] {
      var r := PatchCaption(photos, id, caption);
      assert r[1..] == PatchCaption(photos[1..], id, caption);
      RemoveAfterPatch(photos[1..], id, caption);
    }
  }

  /** Deleting the newest print's id after a capture deletes it along with any older namesake. */
  lemma RemoveAppended(photos: seq<Photo>, p: Photo)
    ensures RemoveById(photos + [p], p.id) == RemoveById(photos, p.id)
  {
    RemoveConcat(photos, [p], p.id);
    assert RemoveById([p], p.id) == [];
  }

  // ---------------------------------------------------------------------------
  // Reconciling the description result
  // ---------------------------------------------------------------------------

  /** What the remote description call produced: a text (possibly absent) or an exception. */
  datatype CaptionOutcome = Answered(text: Option<string>) | Threw

  /** The caption to write, if any. Absent or blank text writes nothing, so the placeholder stays. */
  function CaptionFor(outcome: CaptionOutcome): (caption: Option<string>)
    ensures outcome.Threw? ==> caption == Some(FallbackCaption)
    ensures outcome.Answered? ==>
      (caption.None? <==> outcome.text.None? || AllWhite(outcome.text.value))
    ensures outcome.Answered? && caption.Some? ==>
      caption.value == Trim(outcome.text.value) && !IsWhite(caption.value[0])
  {
    match outcome
    case Threw => Some(FallbackCaption)
    case Answered(None) => None
    case Answered(Some(text)) =>
      TrimBlank(text);
      var trimmed := Trim(text);
      if trimmed != [] then Some(trimmed) else None
  }

  /** The list after the description call for `id` settles with `outcome`. */
  function ApplyOutcome(photos: seq<Photo>, id: string, outcome: CaptionOutcome): (r: seq<Photo>)
    ensures |r| == |photos|
    ensures forall k :: 0 <= k < |photos| && photos[k].id != id ==> r[k] == photos[k]
    ensures forall k :: 0 <= k < |photos| && photos[k].id == id ==>
      r[k] == photos[k].(caption := match CaptionFor(outcome)
                                    case Some(c) => c
                                    case None => photos[k].caption)
  {
    match CaptionFor(outcome)
    case None => photos
    case Some(c) => PatchCaption(photos, id, c)
  }

  // ---------------------------------------------------------------------------
  // The stateful store
  // ---------------------------------------------------------------------------

  /** Whether the local storage write of the whole list succeeded. */
  datatype WriteOutcome = Written | QuotaExceeded

  /** What reading the stored list gave back. */
  datatype ParseOutcome = Parsed(photos: seq<Photo>) | Malformed

  /** The id and image handed to the background description call for a new print. */
  datatype CaptionRequest = CaptionRequest(id: string, payload: string)

  class PhotoStore {
    var photos: seq<Photo>
    var storageError: bool
    /** The ids of the description calls started and not yet settled, one per capture. */
    ghost var pending: multiset<string>

    constructor ()
      ensures photos == [] && !storageError && pending == multiset{}
    {
      photos := [];
      storageError := false;
      pending := multiset{};
    }

    /**
     * The save effect that follows every change of the list. The list itself is
     * never altered; a failed write raises the flag only when there is something to lose.
     */
    method Persist(write: WriteOutcome)
      modifies this
      ensures photos == old(photos) && pending == old(pending)
      ensures write == Written ==> !storageError
      ensures write == QuotaExceeded ==> storageError == (old(storageError) || photos != [])
    {
      match write
      case Written =>
        storageError := false;
      case QuotaExceeded =>
        if |photos| > 0 {
          storageError := true;
        }
    }

    /**
     * The load effect on mount. A stored value that is missing or empty, or that does
     * not parse, leaves the list as it was; a parsed value replaces it and is saved back.
     */
    method Load(saved: Option<string>, parsed: ParseOutcome, write: WriteOutcome)
      modifies this
      ensures saved.Some? && saved.value != [] && parsed.Parsed? ==>
        && photos == parsed.photos
        && (write == Written ==> !storageError)
        && (write == QuotaExceeded ==> storageError == (old(storageError) || photos != []))
      ensures !(saved.Some? && saved.value != [] && parsed.Parsed?) ==>
        photos == old(photos) && storageError == old(storageError)
      ensures pending == old(pending)
    {
      if saved.Some? && saved.value != [] {
        match parsed
        case Parsed(list) =>
          photos := list;
          Persist(write);
        case Malformed =>
      }
    }

    /**
     * A still delivered by the camera becomes a new last entry with the placeholder
     * caption; the returned request names the same id and the image without its header.
     */
    method Capture(dataUrl: string, id: string, timestamp: string, draw: real, write: WriteOutcome)
      returns (request: CaptionRequest)
      requires 0.0 <= draw < 1.0
      modifies this
      ensures photos == old(photos) + [NewPhoto(id, dataUrl, timestamp, draw)]
      ensures request == CaptionRequest(id, StripDataUrlPrefix(dataUrl))
      ensures pending == old(pending) + multiset{id}
      ensures write == Written ==> !storageError
      ensures write == QuotaExceeded ==> storageError
    {
      photos := photos + [NewPhoto(id, dataUrl, timestamp, draw)];
      Persist(write);
      pending := pending + multiset{id};
      request := CaptionRequest(id, StripDataUrlPrefix(dataUrl));
    }

    /** Removes every entry with the given id. */
    method Delete(id: string, write: WriteOutcome)
      modifies this
      ensures photos == RemoveById(old(photos), id) && pending == old(pending)
      ensures write == Written ==> !storageError
      ensures write == QuotaExceeded ==> storageError == (old(storageError) || photos != [])
    {
      photos := RemoveById(photos, id);
      Persist(write);
    }

    /**
     * The description call for `id` settles, once per capture of that id. A caption to
     * write patches every matching entry and is saved; absent or blank text leaves the
     * list and the flag untouched.
     */
    method SettleCaption(id: string, outcome: CaptionOutcome, write: WriteOutcome)
      requires id in pending
      modifies this
      ensures photos == ApplyOutcome(old(photos), id, outcome)
      ensures pending == old(pending) - multiset{id}
      ensures CaptionFor(outcome).None? ==> storageError == old(storageError)
      ensures CaptionFor(outcome).Some? && write == Written ==> !storageError
      ensures CaptionFor(outcome).Some? && write == QuotaExceeded ==>
        storageError == (old(storageError) || photos != [])
    {
      pending := pending - multiset{id};
      match CaptionFor(outcome)
      case None =>
      case Some(c) =>
        photos := PatchCaption(photos, id, c);
        Persist(write);
    }

    /** Clear-all after the user's confirmation: empty list and no warning, whatever the write does. */
    method Reset(confirmed: bool, write: WriteOutcome)
      modifies this
      ensures confirmed ==> photos == [] && !storageError
      ensures !confirmed ==> photos == old(photos) && storageError == old(storageError)
      ensures pending == old(pending)
    {
      if confirmed {
        photos := [];
        storageError := false;
        Persist(write);
      }
    }
  }

  /**
   * A capture starts exactly one description call. Once it has settled, however it
   * ended, its id is no longer pending, so no later settlement can patch the new entry
   * again; only another capture under the same id would start one.
   */
  method CaptionSettlesOnce(store: PhotoStore, dataUrl: string, id: string, timestamp: string,
                            draw: real, outcome: CaptionOutcome, write: WriteOutcome)
    requires 0.0 <= draw < 1.0
    requires id !in store.pending
    modifies store
    ensures id !in store.pending && store.pending == old(store.pending)
    ensures store.photos
         == ApplyOutcome(old(store.photos) + [NewPhoto(id, dataUrl, timestamp, draw)], id, outcome)
  {
    var request := store.Capture(dataUrl, id, timestamp, draw, write);
    store.SettleCaption(request.id, outcome, write);
  }
}
