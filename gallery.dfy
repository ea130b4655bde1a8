/**
 The page's image lightbox. Thumbnails (`.img-wrapper` elements) sit in group
 containers; clicking one opens the modal on the clicked container's images, and
 the prev/next arrows step through that group with clamping at both ends. The
 DOM is abstracted away: a container is its overlay attributes and its wrappers,
 a wrapper is the `src` of its image, and the modal is a handful of fields.
 */
module Gallery {

  datatype Option<T> = None | Some(value: T)

  /** An `.img-wrapper` thumbnail, reduced to the `src` of its `.base-image`. */
  datatype Wrapper = Wrapper(src: string)

  /** A group container: its `data-overlay-heading` and `data-overlay-text` attributes
      (None when the attribute is absent) and its wrappers in document order. */
  datatype Container = Container(headingAttr: Option<string>, textAttr: Option<string>, wrappers: seq<Wrapper>)

  /** Whether the prev and next arrows are displayed. */
  datatype Arrows = Arrows(prevShown: bool, nextShown: bool)

  /** The element a window click lands on: the modal's backdrop itself, or anything else. */
  datatype ClickTarget = Backdrop | OtherElement

  /** The overlay text the page carries before any group has been opened. */
  const DefaultHeading := "Default Heading"
  const DefaultText := "Default paragraph text goes here."

  /** JavaScript truthiness of an attribute value: present and not the empty string. */
  predicate Truthy(attr: Option<string>) {
    attr.Some? && attr.value != ""
  }

  /** The image sources of a list of wrappers, in the same order. */
  function Sources(ws: seq<Wrapper>): (r: seq<string>)
    ensures |r| == |ws|
    ensures forall i :: 0 <= i < |ws| ==> r[i] == ws[i].src
  {
    if ws == [] then [] else [ws[0].src] + Sources(ws[1..])
  }

  /** `Array.prototype.indexOf` on strings: the first position of `x`, or -1 when absent. */
  function IndexOf(s: seq<string>, x: string): (i: int)
    ensures -1 <= i < |s|
    ensures i == -1 <==> x !in s
    ensures 0 <= i ==> s[i] == x && forall j :: 0 <= j < i ==> s[j] != x
  {
    if s == [] then -1
    else if s[0] == x then 0
    else
      var k := IndexOf(s[1..], x);
      assert s == [s[0]] + s[1..];
      if k == -1 then -1 else k + 1
  }

  /** `modalGroupImages[modalCurrentIndex]`: the source at the index, None for JavaScript's `undefined`. */
  function ImageAt(group: seq<string>, index: int): Option<string>
  {
    if 0 <= index < |group| then Some(group[index]) else None
  }

  /** Looking up the first position of a source yields that source when the group holds it,
      and `undefined` otherwise. */
  lemma ImageAtIndexOf(group: seq<string>, x: string)
    ensures ImageAt(group, IndexOf(group, x)) == if x in group then Some(x) else None
  {
  }

  /** Arrow visibility as a function of the group's length and the current index. */
  function ArrowVisibility(n: nat, index: int): (a: Arrows)
    ensures a.prevShown <==> n > 1 && index != 0
    ensures a.nextShown <==> n > 1 && index != n - 1
  {
    if n <= 1 then Arrows(false, false)
    else if index == 0 then Arrows(false, true)
    else if index == n - 1 then Arrows(true, false)
    else Arrows(true, true)
  }

  /** The index after the next arrow on a non-empty group: one step on, clamped at the last image. */
  function NextIndex(n: nat, index: int): (r: int)
    requires n > 0
    ensures r <= n - 1
    ensures -1 <= index < n ==> 0 <= r && index <= r <= index + 1
    ensures r != index + 1 ==> r == n - 1
  {
    var i := index + 1;
    if i >= n then n - 1 else i
  }

  /** The index after the prev arrow on a non-empty group: one step back, clamped at the first image. */
  function PrevIndex(n: nat, index: int): (r: int)
    requires n > 0
    ensures 0 <= r
    ensures -1 <= index < n ==> r < n
    ensures index - 1 <= r <= if index < 0 then 0 else index
    ensures r != index - 1 ==> r == 0
  {
    var i := index - 1;
    if i < 0 then 0 else i
  }

  /** On a valid index, an arrow is displayed exactly when clicking it would move the index. */
  lemma ArrowsMatchMoves(n: nat, index: int)
    requires 0 <= index < n
    ensures ArrowVisibility(n, index).prevShown <==> PrevIndex(n, index) != index
    ensures ArrowVisibility(n, index).nextShown <==> NextIndex(n, index) != index
  {
  }

  /** Next followed by prev returns to the starting index, except from the last one. */
  lemma PrevUndoesNext(n: nat, index: int)
    requires 0 <= index < n - 1
    ensures PrevIndex(n, NextIndex(n, index)) == index
  {
  }

  /** Prev followed by next returns to the starting index, except from the first one. */
  lemma NextUndoesPrev(n: nat, index: int)
    requires 0 < index < n
    ensures NextIndex(n, PrevIndex(n, index)) == index
  {
  }

  /** The index after `k` clicks on the next arrow. */
  function NextTimes(n: nat, index: int, k: nat): int
    requires n > 0
    decreases k
  {
    if k == 0 then index else NextTimes(n, NextIndex(n, index), k - 1)
  }

  /** The index after `k` clicks on the prev arrow. */
  function PrevTimes(n: nat, index: int, k: nat): int
    requires n > 0
    decreases k
  {
    if k == 0 then index else PrevTimes(n, PrevIndex(n, index), k - 1)
  }

  /** Enough clicks on next reach the last image, and further clicks stay there. */
  lemma {:induction false} NextConverges(n: nat, index: int, k: nat)
    requires n > 0 && -1 <= index < n
    requires k >= n - 1 - index
    ensures NextTimes(n, index, k) == n - 1
    decreases k
  {
    if k > 0 {
      NextConverges(n, NextIndex(n, index), k - 1);
    }
  }

  /** Enough clicks on prev reach the first image, and further clicks stay there. */
  lemma {:induction false} PrevConverges(n: nat, index: int, k: nat)
    requires n > 0 && -1 <= index < n
    requires k >= (if index < 0 then 1 else index)
    ensures PrevTimes(n, index, k) == 0
    decreases k
  {
    if k > 0 {
      PrevConverges(n, PrevIndex(n, index), k - 1);
    }
  }

  /** Opening from a wrapper that belongs to the container selects that wrapper's image:
      the first position of its source in the group. */
  lemma OpenSelectsClicked(container: Container, clicked: Wrapper)
    requires clicked in container.wrappers
    ensures var group := Sources(container.wrappers);
            var i := IndexOf(group, clicked.src);
            0 <= i < |group| && group[i] == clicked.src &&
            forall j :: 0 <= j < i ==> group[j] != clicked.src
  {
  }

  /**
   The modal viewer and the page-script state behind it (the globals
   `modalGroupImages` and `modalCurrentIndex`). Those globals exist only once a
   group has been opened: until then `groupOpened` is false and the group, the index,
   the displayed image and the arrows are unconstrained.
   */
  class Modal {
    var group: seq<string>      // modalGroupImages
    var index: int              // modalCurrentIndex
    var visible: bool           // #popupModal is displayed
    var shown: Option<string>   // source of the image in #modalImageContainer
    var arrows: Arrows          // display of #prevBtn and #nextBtn
    var heading: string         // text of #overlayHeading
    var text: string            // text of #overlayText
    ghost var groupOpened: bool // some group has been opened

    /** Once a group has been opened, the index lies in [-1, |group|) and the display reflects (group, index). */
    ghost predicate Valid()
      reads this
    {
      groupOpened ==>
        -1 <= index < |group| &&
        shown == ImageAt(group, index) &&
        arrows == ArrowVisibility(|group|, index)
    }

    /** The page as loaded: modal hidden, default overlay text, no group opened yet. */
    constructor Load()
      ensures Valid() && !groupOpened
      ensures !visible && heading == DefaultHeading && text == DefaultText
    {
      visible := false;
      heading := DefaultHeading;
      text := DefaultText;
      groupOpened := false;
    }

    /** `showModalImage` and `updateArrowVisibility`: display `src`, make the modal visible and
        recompute the arrows from the current group and index. */
    method ShowImage(src: Option<string>)
      modifies this`shown, this`visible, this`arrows
      ensures shown == src && visible
      ensures arrows == ArrowVisibility(|group|, index)
    {
      shown := src;
      visible := true;
      arrows := ArrowVisibility(|group|, index);
    }

    /** `openModalGroup`: take the overlay text from the container's attributes when they are truthy,
        rebuild the group from the container's wrappers, select the clicked image and show it. */
    method Open(container: Container, clicked: Wrapper)
      modifies this
      ensures Valid() && groupOpened
      ensures heading == if Truthy(container.headingAttr) then container.headingAttr.value else old(heading)
      ensures text == if Truthy(container.textAttr) then container.textAttr.value else old(text)
      ensures group == Sources(container.wrappers)
      ensures index == IndexOf(group, clicked.src)
      ensures clicked in container.wrappers ==> 0 <= index < |group| && group[index] == clicked.src
      ensures visible && shown == ImageAt(group, index)
      ensures clicked in container.wrappers ==> shown == Some(clicked.src)
      ensures arrows == ArrowVisibility(|group|, index)
    {
      if Truthy(container.headingAttr) {
        heading := container.headingAttr.value;
      }
      if Truthy(container.textAttr) {
        text := container.textAttr.value;
      }
      var ws := container.wrappers;
      ghost var h, t := heading, text;
      group := [];
      var k := 0;
      while k < |ws|
        invariant 0 <= k <= |ws|
        invariant |group| == k
        invariant forall i :: 0 <= i < k ==> group[i] == ws[i].src
        invariant heading == h && text == t
      {
        group := group + [ws[k].src];
        k := k + 1;
      }
      assert group == Sources(ws);
      index := IndexOf(group, clicked.src);
      if clicked in ws {
        OpenSelectsClicked(container, clicked);
      }
      groupOpened := true;
      ShowImage(ImageAt(group, index));
    }

    /** `nextImage`: nothing on an empty group; otherwise step on, clamped at the last image, and show it. */
    method Next()
      requires Valid() && groupOpened
      modifies this
      ensures Valid() && groupOpened
      ensures group == old(group) && heading == old(heading) && text == old(text)
      ensures old(group) == [] ==> unchanged(this)
      ensures old(group) != [] ==>
        index == NextIndex(|group|, old(index)) && 0 <= index < |group| &&
        visible && shown == Some(group[index]) && arrows == ArrowVisibility(|group|, index)
    {
      if |group| == 0 {
        return;
      }
      index := index + 1;
      if index >= |group| {
        index := |group| - 1;
      }
      ShowImage(ImageAt(group, index));
    }

    /** `prevImage`: nothing on an empty group; otherwise step back, clamped at the first image, and show it. */
    method Prev()
      requires Valid() && groupOpened
      modifies this
      ensures Valid() && groupOpened
      ensures group == old(group) && heading == old(heading) && text == old(text)
      ensures old(group) == [] ==> unchanged(this)
      ensures old(group) != [] ==>
        index == PrevIndex(|group|, old(index)) && 0 <= index < |group| &&
        visible && shown == Some(group[index]) && arrows == ArrowVisibility(|group|, index)
    {
      if |group| == 0 {
        return;
      }
      index := index - 1;
      if index < 0 {
        index := 0;
      }
      ShowImage(ImageAt(group, index));
    }

    /** `window.onclick`: a click on the backdrop hides the modal; any other click changes nothing. */
    method Dismiss(target: ClickTarget)
      requires Valid()
      modifies this`visible
      ensures Valid()
      ensures visible == (old(visible) && target != Backdrop)
    {
      if target == Backdrop {
        visible := false;
      }
    }
  }

  /** Opening a three-image group on its middle image, then stepping to the end and back. */
  method ModalSession()
  {
    var m := new Modal.Load();
    m.Dismiss(Backdrop);
    assert !m.visible;

    m.Open(Container(Some("Fine"), Some("Fine salt."), [Wrapper("A"), Wrapper("B"), Wrapper("C")]), Wrapper("B"));
    assert m.group[0] == "A" && m.group[1] == "B" && m.group[2] == "C";
    assert m.index == 1;
    assert m.visible && m.arrows == Arrows(true, true);
    assert m.heading == "Fine" && m.text == "Fine salt.";

    m.Next();
    assert m.index == 2 && m.shown == Some("C") && m.arrows == Arrows(true, false);
    m.Next();
    assert m.index == 2;
    m.Prev();
    assert m.index == 1;
  }

  /** Re-opening on another group replaces the group and the index; only a backdrop click hides the modal. */
  method ReopenSession(m: Modal)
    requires m.Valid()
    modifies m
  {
    m.Open(Container(Some("Coarse"), None, [Wrapper("D"), Wrapper("E")]), Wrapper("E"));
    assert m.group[0] == "D" && m.group[1] == "E";
    assert m.index == 1 && m.shown == Some("E");
    assert m.heading == "Coarse" && m.text == old(m.text);

    m.Dismiss(OtherElement);
    assert m.visible;
    m.Dismiss(Backdrop);
    assert !m.visible && m.index == 1;
    m.Dismiss(Backdrop);
    assert !m.visible;
  }
}
