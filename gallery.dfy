/** The gallery strip: newest print first, or a placeholder when there is none. */
module Gallery {
  import opened Types

  /** The order in which the cards are laid out: a reversed copy of the stored list. */
  function DisplayOrder(photos: seq<Photo>): (shown: seq<Photo>)
    ensures |shown| == |photos|
    ensures forall i :: 0 <= i < |photos| ==> shown[i] == photos[|photos| - 1 - i]
  {
    if photos == [] then [] else DisplayOrder(photos[1..]) + [photos[0]]
  }

  /** The cards shown are exactly the stored prints, with the same multiplicities. */
  lemma {:induction false} DisplaySameEntries(photos: seq<Photo>)
    ensures multiset(DisplayOrder(photos)) == multiset(photos)
  {
    if photos != [] {
      DisplaySameEntries(photos[1..]);
      assert photos == [photos[0]] + photos[1..];
    }
  }

  /** Appending a print puts it at the front of the display and leaves the rest in place. */
  lemma NewestFirst(photos: seq<Photo>, p: Photo)
    ensures DisplayOrder(photos + [p]) == [p] + DisplayOrder(photos)
  {
    var shown, rest := DisplayOrder(photos + [p]), DisplayOrder(photos);
    forall i | 0 <= i < |shown|
      ensures shown[i] == ([p] + rest)[i]
    {
      if i > 0 {
        assert shown[i] == (photos + [p])[|photos| - i];
      }
    }
  }

  /** Reversing the reversed copy gives back the stored list. */
  lemma DisplayInvolution(photos: seq<Photo>)
    ensures DisplayOrder(DisplayOrder(photos)) == photos
  {
  }

  datatype View = Placeholder | Cards(cards: seq<Photo>)

  /** What the gallery renders for a given list. */
  function Render(photos: seq<Photo>): (v: View)
    ensures v.Placeholder? <==> photos == []
    ensures v.Cards? ==> |v.cards| == |photos| && v.cards[0] == photos[|photos| - 1]
    ensures v.Cards? ==> forall i :: 0 <= i < |photos| ==> v.cards[i] == photos[|photos| - 1 - i]
  {
    if |photos| == 0 then Placeholder else Cards(DisplayOrder(photos))
  }
}
