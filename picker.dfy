/** The photo picker: which image-request results it passes on to the
    selection stream, and the running count it keeps of them. */
module PhotoPicker {

  datatype Option<T> = None | Some(value: T)

  /** A value in the result-info dictionary of an image request; only
      booleans matter to the picker. */
  datatype InfoValue = Flag(b: bool) | OtherValue

  type Info = map<string, InfoValue>

  /** The key under which a request result is marked as a degraded
      (thumbnail) version of the asset. */
  const DegradedKey: string := "PHImageResultIsDegradedKey"

  /** One completed image request: the image and the info, each possibly
      missing. */
  datatype Delivery<Image> = Delivery(image: Option<Image>, info: Option<Info>)

  /** A result is a thumbnail when its info holds the degraded key with the
      boolean true; a missing key or a non-boolean value is not. */
  predicate IsDegraded(info: Info)
    ensures IsDegraded(info) <==> DegradedKey in info && info[DegradedKey] == Flag(true)
  {
    DegradedKey in info && info[DegradedKey].Flag? && info[DegradedKey].b
  }

  /** The image a delivery passes on, if any. */
  function Accept<Image>(d: Delivery<Image>): (r: Option<Image>)
    ensures r.Some? <==> d.image.Some? && d.info.Some? && !IsDegraded(d.info.value)
    ensures r.Some? ==> r.value == d.image.value
  {
    match (d.image, d.info)
    case (Some(img), Some(info)) => if IsDegraded(info) then None else Some(img)
    case _ => None
  }

  /** The images a run of deliveries passes on, in delivery order. */
  function Accepted<Image>(ds: seq<Delivery<Image>>): (r: seq<Image>)
    ensures |r| <= |ds|
    ensures forall i :: 0 <= i < |r| ==> exists j :: 0 <= j < |ds| && Accept(ds[j]) == Some(r[i])
    decreases |ds|
  {
    if ds == [] then []
    else Accepted(ds[..|ds| - 1]) + (match Accept(ds[|ds| - 1]) case Some(img) => [img] case None => [])
  }

  /** Passing on is per delivery: a run split in two passes on the images of
      each part, one after the other. */
  lemma {:induction false} AcceptedConcat<Image>(a: seq<Delivery<Image>>, b: seq<Delivery<Image>>)
    ensures Accepted(a + b) == Accepted(a) + Accepted(b)
    decreases |b|
  {
    if b != [] {
      assert (a + b)[..|a + b| - 1] == a + b[..|b| - 1];
      AcceptedConcat(a, b[..|b| - 1]);
    } else {
      assert a + b == a;
    }
  }

  /** At most one image per delivery, and exactly one for each delivery
      that is accepted. */
  lemma {:induction false} AcceptedBound<Image>(ds: seq<Delivery<Image>>)
    ensures |Accepted(ds)| <= |ds|
    ensures (forall i :: 0 <= i < |ds| ==> Accept(ds[i]).Some?) ==> |Accepted(ds)| == |ds|
    ensures (forall i :: 0 <= i < |ds| ==> Accept(ds[i]).None?) ==> Accepted(ds) == []
    decreases |ds|
  {
    if ds != [] {
      AcceptedBound(ds[..|ds| - 1]);
    }
  }

  /** The picker screen: the published count, what its subject has sent to
      subscribers, and whether the subject has completed. */
  class PhotosScreen<Image> {
    var selectedPhotosCount: nat
    var emitted: seq<Image>
    var finished: bool
    /** Every completed image request, in order. */
    ghost var deliveries: seq<Delivery<Image>>

    /** The count covers every accepted result; the subject sent a prefix of
        them, and all of them while it has not completed. */
    ghost predicate Valid()
      reads this
    {
      var accepted := Accepted(deliveries);
      && selectedPhotosCount == |accepted|
      && emitted <= accepted
      && (!finished ==> emitted == accepted)
    }

    constructor ()
      ensures Valid()
      ensures selectedPhotosCount == 0 && emitted == [] && !finished && deliveries == []
    {
      selectedPhotosCount := 0;
      emitted := [];
      finished := false;
      deliveries := [];
    }

    /** The completion handler of a full-size image request. A result without
        image or info, or a degraded one, is ignored. Otherwise the image is
        sent, which reaches subscribers only while the subject has not
        completed, and the count goes up by one. Returns what was sent to
        subscribers. */
    method Deliver(image: Option<Image>, info: Option<Info>) returns (sent: Option<Image>)
      requires Valid()
      modifies this
      ensures Valid()
      ensures deliveries == old(deliveries) + [Delivery(image, info)]
      ensures finished == old(finished)
      ensures Accept(Delivery(image, info)).None? ==>
                sent.None? && selectedPhotosCount == old(selectedPhotosCount) && emitted == old(emitted)
      ensures Accept(Delivery(image, info)).Some? ==>
                selectedPhotosCount == old(selectedPhotosCount) + 1
      ensures Accept(Delivery(image, info)).Some? && !finished ==>
                sent == Some(image.value) && emitted == old(emitted) + [image.value]
      ensures finished ==> sent.None? && emitted == old(emitted)
    {
      ghost var d := Delivery(image, info);
      assert (deliveries + [d])[..|deliveries + [d]| - 1] == deliveries;
      deliveries := deliveries + [d];
      sent := None;
      if image.None? || info.None? {
        return;
      }
      var dict := info.value;
      if DegradedKey in dict && dict[DegradedKey].Flag? && dict[DegradedKey].b {
        return;
      }
      if !finished {
        emitted := emitted + [image.value];
        sent := Some(image.value);
      }
      selectedPhotosCount := selectedPhotosCount + 1;
    }

    /** `viewWillDisappear`: the subject completes; counts and sent images
        stay as they are. */
    method Disappear()
      requires Valid()
      modifies this
      ensures Valid()
      ensures finished
      ensures selectedPhotosCount == old(selectedPhotosCount) && emitted == old(emitted)
      ensures deliveries == old(deliveries)
    {
      finished := true;
    }
  }
}
