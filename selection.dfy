/** The main screen's selection: an ordered list of images, published on
    every change to the UI rules and to the collage preview. */
module SelectionStore {
  import opened CollageUi

  /** One change sent on the selection subject. */
  datatype Change<Image> = Cleared | Appended(image: Image)

  /** The selection after one change. */
  function Step<Image>(selection: seq<Image>, c: Change<Image>): (r: seq<Image>)
    ensures c.Cleared? ==> r == []
    ensures c.Appended? ==> |r| == |selection| + 1 && r[..|selection|] == selection && r[|selection|] == c.image
  {
    match c
    case Cleared => []
    case Appended(img) => selection + [img]
  }

  /** The selection after a run of changes, applied first to last. */
  function Apply<Image>(selection: seq<Image>, cs: seq<Change<Image>>): seq<Image>
    decreases |cs|
  {
    if cs == [] then selection else Apply(Step(selection, cs[0]), cs[1..])
  }

  /** The images of all appends in a run, in order, whatever else it holds. */
  function AppendedImages<Image>(cs: seq<Change<Image>>): seq<Image>
    decreases |cs|
  {
    if cs == [] then []
    else (if cs[0].Appended? then [cs[0].image] else []) + AppendedImages(cs[1..])
  }

  predicate NoClear<Image>(cs: seq<Change<Image>>) {
    forall i :: 0 <= i < |cs| ==> cs[i].Appended?
  }

  /** Applying one more change is one more step. */
  lemma {:induction false} ApplySnoc<Image>(s: seq<Image>, cs: seq<Change<Image>>, c: Change<Image>)
    ensures Apply(s, cs + [c]) == Step(Apply(s, cs), c)
    decreases |cs|
  {
    if cs != [] {
      assert (cs + [c])[1..] == cs[1..] + [c];
      ApplySnoc(Step(s, cs[0]), cs[1..], c);
    }
  }

  /** A run of appends adds its images at the end, in order, with no
      capacity or duplicate check. */
  lemma {:induction false} ApplyAppends<Image>(s: seq<Image>, cs: seq<Change<Image>>)
    requires NoClear(cs)
    ensures Apply(s, cs) == s + AppendedImages(cs)
    decreases |cs|
  {
    if cs != [] {
      ApplyAppends(s + [cs[0].image], cs[1..]);
    }
  }

  /** After a clear, earlier history no longer matters: the selection is
      what was appended since. */
  lemma {:induction false} ApplyAfterClear<Image>(s: seq<Image>, before: seq<Change<Image>>, after: seq<Change<Image>>)
    requires NoClear(after)
    ensures Apply(s, before + [Cleared] + after) == AppendedImages(after)
    decreases |before|
  {
    if before == [] {
      assert [Cleared] + after == [Cleared] + after;
      assert ([Cleared] + after)[1..] == after;
      ApplyAppends([], after);
    } else {
      assert (before + [Cleared] + after)[1..] == before[1..] + [Cleared] + after;
      ApplyAfterClear(Step(s, before[0]), before[1..], after);
    }
  }

  /** Clearing twice is clearing once, whatever the selection held. */
  lemma ClearIdempotent<Image>(s: seq<Image>)
    ensures Step(Step(s, Cleared), Cleared) == Step(s, Cleared) == []
  {
  }

  /** The state of the main screen: the selection subject's current value,
      the fields `updateUI` writes and the preview image. The collage
      renderer is supplied from outside and not interpreted. */
  class MainScreen<Image> {
    var images: seq<Image>
    var saveEnabled: bool
    var clearEnabled: bool
    var addEnabled: bool
    var title: string
    var preview: Image
    const compose: seq<Image> -> Image
    /** Every change sent on the subject since the screen loaded. */
    ghost var history: seq<Change<Image>>

    /** The outputs agree with the current selection, which is the replay
        of the history from the empty selection. */
    ghost predicate Valid()
      reads this
    {
      && images == Apply([], history)
      && saveEnabled == SaveEnabled(|images|)
      && clearEnabled == ClearEnabled(|images|)
      && addEnabled == AddEnabled(|images|)
      && title == Title(|images|)
      && preview == compose(images)
    }

    /** The subject starts with the empty selection, and subscribing replays
        it, so the initial UI is already derived. */
    constructor (compose: seq<Image> -> Image)
      ensures Valid() && this.compose == compose
      ensures images == [] && history == []
      ensures !saveEnabled && !clearEnabled && addEnabled && title == "Collage"
    {
      this.compose := compose;
      images := [];
      history := [];
      saveEnabled := SaveEnabled(0);
      clearEnabled := ClearEnabled(0);
      addEnabled := AddEnabled(0);
      title := Title(0);
      preview := compose([]);
      InitialUi();
    }

    /** What every emission runs: `updateUI` and the preview assignment. */
    method Publish()
      modifies this
      ensures images == old(images) && history == old(history)
      ensures saveEnabled == SaveEnabled(|images|) && clearEnabled == ClearEnabled(|images|)
      ensures addEnabled == AddEnabled(|images|) && title == Title(|images|)
      ensures preview == compose(images)
    {
      var n := |images|;
      saveEnabled := SaveEnabled(n);
      clearEnabled := ClearEnabled(n);
      addEnabled := AddEnabled(n);
      title := Title(n);
      preview := compose(images);
    }

    /** The clear action: the selection becomes empty, whatever it held. */
    method Clear()
      requires Valid()
      modifies this
      ensures Valid()
      ensures images == [] && history == old(history) + [Cleared]
      ensures !saveEnabled && !clearEnabled && addEnabled && title == "Collage"
    {
      ApplySnoc([], history, Cleared);
      images := [];
      history := history + [Cleared];
      Publish();
    }

    /** One image from the picker, appended at the end of the selection. */
    method Append(img: Image)
      requires Valid()
      modifies this
      ensures Valid()
      ensures images == old(images) + [img] && history == old(history) + [Appended(img)]
    {
      ApplySnoc([], history, Appended(img));
      images := images + [img];
      history := history + [Appended(img)];
      Publish();
    }
  }
}
