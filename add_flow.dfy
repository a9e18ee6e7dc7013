/** The add action: the main screen subscribes to a new picker's selection
    stream and appends each image it receives to its selection. */
module AddFlow {
  import opened SelectionStore
  import opened PhotoPicker

  /** The selection is what it held when the picker opened, followed by
      every image the picker has sent, in order. */
  ghost predicate Linked<Image>(main: MainScreen<Image>, picker: PhotosScreen<Image>, base: seq<Image>)
    reads main, picker
  {
    main.images == base + picker.emitted
  }

  /** `actionAdd`: a fresh picker whose stream is bound to the selection. */
  method OpenPicker<Image>(main: MainScreen<Image>) returns (picker: PhotosScreen<Image>)
    requires main.Valid()
    ensures fresh(picker) && picker.Valid()
    ensures picker.selectedPhotosCount == 0 && picker.emitted == [] && !picker.finished
    ensures Linked(main, picker, main.images)
  {
    picker := new PhotosScreen();
  }

  /** One completed image request on the picker, carried through its
      subscription into the selection. */
  method DeliverToSelection<Image>(main: MainScreen<Image>, picker: PhotosScreen<Image>,
                                   image: Option<Image>, info: Option<Info>, ghost base: seq<Image>)
    requires main.Valid() && picker.Valid() && Linked(main, picker, base)
    modifies main, picker
    ensures main.Valid() && picker.Valid() && Linked(main, picker, base)
    ensures picker.finished == old(picker.finished)
    ensures picker.selectedPhotosCount ==
              old(picker.selectedPhotosCount) + (if Accept(Delivery(image, info)).Some? then 1 else 0)
    ensures old(picker.finished) ==> main.images == old(main.images)
    ensures Accept(Delivery(image, info)).None? ==> main.images == old(main.images)
    ensures Accept(Delivery(image, info)).Some? && !old(picker.finished) ==>
              main.images == old(main.images) + [image.value]
  {
    var sent := picker.Deliver(image, info);
    if sent.Some? {
      main.Append(sent.value);
    }
  }

  /** `viewWillDisappear` on the picker: the subscription ends, and the
      selection keeps what was sent so far. */
  method ClosePicker<Image>(main: MainScreen<Image>, picker: PhotosScreen<Image>, ghost base: seq<Image>)
    requires main.Valid() && picker.Valid() && Linked(main, picker, base)
    modifies picker
    ensures picker.Valid() && picker.finished && Linked(main, picker, base)
    ensures picker.emitted == old(picker.emitted)
    ensures picker.selectedPhotosCount == old(picker.selectedPhotosCount)
  {
    picker.Disappear();
  }

  /** A client run: two images picked in order around a thumbnail and a
      failed request, then the picker closes. The selection holds the two in
      order. A result that completes after closing, while the picker
      screen is still alive, raises the picker's count but does not reach
      the selection. */
  method AddScenario<Image>(compose: seq<Image> -> Image, a: Image, b: Image, late: Image)
  {
    var full: Info := map[DegradedKey := Flag(false)];
    var thumb: Info := map[DegradedKey := Flag(true)];
    assert !IsDegraded(full) && IsDegraded(thumb);
    var main := new MainScreen(compose);
    var picker := OpenPicker(main);
    DeliverToSelection(main, picker, Some(a), Some(thumb), []);
    DeliverToSelection(main, picker, Some(a), Some(full), []);
    DeliverToSelection(main, picker, None, Some(full), []);
    DeliverToSelection(main, picker, Some(b), Some(full), []);
    assert main.images == [a, b] && picker.selectedPhotosCount == 2;
    ClosePicker(main, picker, []);
    DeliverToSelection(main, picker, Some(late), Some(full), []);
    assert main.images == [a, b] && picker.selectedPhotosCount == 3;
  }
}
