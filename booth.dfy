/** The app's wiring: the camera's onCapture is the store's capture handler. */
module Booth {
  import opened Types
  import App
  import RetroCamera
  import Gallery

  /**
   * One full cycle on top of a restored gallery: press, two frames, the print timer,
   * the capture handler, then a non-blank description. The new print is shown first,
   * carries the delivered still and the trimmed description, and nothing was lost.
   */
  method CaptureAndDescribe(stored: seq<Photo>, dataUrl: string, id: string, timestamp: string,
                            draw: real, answer: string)
    returns (shown: Gallery.View, warning: bool)
    requires 0.0 <= draw < 1.0
    requires !App.AllWhite(answer)
    ensures shown.Cards? && |shown.cards| == |stored| + 1
    ensures shown.cards[0].dataUrl == dataUrl && shown.cards[0].id == id
    ensures shown.cards[0].caption == App.Trim(answer)
    ensures !warning
  {
    var showing, atPress, afterOne, afterTwo, whilePrinting, captured, cleared :=
      RetroCamera.PrintCycle(1280, 720, dataUrl);

    var store := new App.PhotoStore();
    // The saved text is opaque: `stored` is what parsing it gave.
    store.Load(Some("saved"), App.Parsed(stored), App.Written);
    var request := store.Capture(captured.value, id, timestamp, draw, App.Written);
    store.SettleCaption(request.id, App.Answered(Some(answer)), App.Written);
    assert store.photos[|stored|].id == id;
    shown := Gallery.Render(store.photos);
    warning := store.storageError;
  }

  /**
   * A print deleted before its description arrives stays deleted, whichever way the
   * description call ends.
   */
  method DeleteBeforeCaption(stored: seq<Photo>, dataUrl: string, id: string, timestamp: string,
                             draw: real, outcome: App.CaptionOutcome)
    returns (remaining: seq<Photo>)
    requires 0.0 <= draw < 1.0
    ensures forall p :: p in remaining ==> p.id != id
    ensures remaining == App.RemoveById(stored, id)
  {
    var store := new App.PhotoStore();
    // The saved text is opaque: `stored` is what parsing it gave.
    store.Load(Some("saved"), App.Parsed(stored), App.Written);
    var request := store.Capture(dataUrl, id, timestamp, draw, App.QuotaExceeded);
    store.Delete(id, App.QuotaExceeded);
    App.RemoveAppended(stored, App.NewPhoto(id, dataUrl, timestamp, draw));
    App.PatchAfterRemove(stored, id, match App.CaptionFor(outcome) case Some(c) => c case None => "");
    store.SettleCaption(request.id, outcome, App.Written);
    remaining := store.photos;
  }
}
