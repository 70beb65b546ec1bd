/** The exported text box (`TextInputControl`): a `Text` property kept in step with the inner
    box, and a `ValueChanged(old, new)` notification raised whenever the box text differs from
    the text last reported. */
module TextInput {
  import opened Platform

  /** One `ValueChanged` notification. */
  datatype Change = Change(oldText: string, newText: string)

  datatype ScrollBarVisibility = Auto | Hidden
  datatype TextWrapping = Wrap | NoWrap

  /** A `string` property that may be null reads as "". */
  function OrEmpty(v: Option<string>): (r: string)
    ensures v.Some? ==> r == v.value
    ensures v.None? ==> r == []
  {
    if v.Some? then v.value else []
  }

  /** The notification `InputBox_TextChanged` raises for a box text `current` after `previous`
      was last reported: one change when they differ, none otherwise. */
  function Notify(previous: string, current: string): (r: seq<Change>)
    ensures |r| <= 1
    ensures r != [] <==> previous != current
    ensures r != [] ==> r[0] == Change(previous, current)
  {
    if previous != current then [Change(previous, current)] else []
  }

  /** `events` is a chain of real changes starting from `start`, each taking up where the one
      before left off, and `last` is where the chain ends. */
  predicate Chained(start: string, events: seq<Change>, last: string)
    decreases |events|
  {
    if events == [] then last == start
    else
      events[0].oldText == start && events[0].oldText != events[0].newText
      && Chained(events[0].newText, events[1..], last)
  }

  /** Reporting a real change from the end of a chain extends the chain. */
  lemma {:induction false} ChainExtend(start: string, events: seq<Change>, last: string, next: string)
    requires Chained(start, events, last) && last != next
    ensures Chained(start, events + [Change(last, next)], next)
    decreases |events|
  {
    if events != [] {
      ChainExtend(events[0].newText, events[1..], last, next);
      assert (events + [Change(last, next)])[1..] == events[1..] + [Change(last, next)];
    }
  }

  /** What a chain promises: each notification's old text is the previous one's new text (the
      first one's is `start`), no notification has equal old and new text, and the last new
      text is `last`. */
  lemma {:induction false} ChainedLinks(start: string, events: seq<Change>, last: string)
    requires Chained(start, events, last)
    ensures events != [] ==> events[0].oldText == start && events[|events| - 1].newText == last
    ensures forall i :: 0 <= i < |events| ==> events[i].oldText != events[i].newText
    ensures forall i :: 0 < i < |events| ==> events[i].oldText == events[i - 1].newText
    decreases |events|
  {
    if events != [] {
      var rest := events[1..];
      ChainedLinks(events[0].newText, rest, last);
      assert forall i :: 0 < i < |events| ==> events[i] == rest[i - 1];
    }
  }

  class TextInputControl {
    /** The `Text` dependency property; `None` is a null string. */
    var text: Option<string>
    /** `InputBox.Text`. */
    var boxText: string
    /** `_previousText`: the box text last reported. */
    var previousText: string
    /** The `ValueChanged` notifications raised so far, in order. */
    var changes: seq<Change>
    var verticalScrollBar: ScrollBarVisibility
    var acceptsReturn: bool
    var wrapping: TextWrapping

    /** The notifications form one chain starting from the empty text and ending at the text
        last reported. */
    predicate Valid()
      reads this
    {
      Chained([], changes, previousText)
    }

    /** A new control: `Text` and the box are empty, nothing has been reported. */
    constructor ()
      ensures text == Some([]) && boxText == [] && previousText == [] && changes == []
      ensures Valid()
    {
      text := Some([]);
      boxText := [];
      previousText := [];
      changes := [];
      verticalScrollBar := Hidden;
      acceptsReturn := false;
      wrapping := NoWrap;
    }

    /** `SetScrollBarVisible`: a visible scroll bar goes with multi-line, wrapping input. */
    method SetScrollBarVisible(visible: bool)
      modifies this
      ensures verticalScrollBar == (if visible then Auto else Hidden)
      ensures acceptsReturn == visible
      ensures wrapping == (if visible then Wrap else NoWrap)
      ensures text == old(text) && boxText == old(boxText)
      ensures previousText == old(previousText) && changes == old(changes)
    {
      verticalScrollBar := if visible then Auto else Hidden;
      acceptsReturn := visible;
      wrapping := if visible then Wrap else NoWrap;
    }

    /** Assigning `Text` from outside (code or a binding). The property system calls back only
        when the value really changes; the callback writes the box only when it differs, which
        raises the box's `TextChanged` in turn. */
    method SetText(v: Option<string>)
      requires Valid()
      modifies this
      ensures Valid()
      ensures old(text) == v ==>
        (text == old(text) && boxText == old(boxText)
         && previousText == old(previousText) && changes == old(changes))
      ensures old(text) != v ==> text == (if old(boxText) == OrEmpty(v) then v else Some(OrEmpty(v)))
      ensures old(text) != v ==> boxText == OrEmpty(v)
      ensures old(text) != v && old(boxText) != OrEmpty(v) ==>
        previousText == OrEmpty(v) && changes == old(changes) + Notify(old(previousText), OrEmpty(v))
      ensures old(boxText) == OrEmpty(v) ==> previousText == old(previousText) && changes == old(changes)
    {
      if text != v {
        text := v;
        OnTextPropertyChanged(v);
      }
    }

    /** `OnTextPropertyChanged`: a null value counts as ""; the box is written only when it
        holds something else, so a value that came from the box is not written back. */
    method OnTextPropertyChanged(v: Option<string>)
      requires Valid()
      modifies this
      ensures Valid()
      ensures boxText == OrEmpty(v)
      ensures old(boxText) == OrEmpty(v) ==>
        (text == old(text) && previousText == old(previousText) && changes == old(changes))
      ensures old(boxText) != OrEmpty(v) ==> text == (if old(text) == Some(OrEmpty(v)) then old(text) else Some(OrEmpty(v)))
      ensures old(boxText) != OrEmpty(v) ==>
        previousText == OrEmpty(v) && changes == old(changes) + Notify(old(previousText), OrEmpty(v))
      decreases if boxText == OrEmpty(v) then 0 else 2
    {
      var newVal := OrEmpty(v);
      if boxText != newVal {
        boxText := newVal;
        InputBoxTextChanged();
      }
    }

    /** The user edits the box; the box raises `TextChanged` only when its text changes. */
    method Type(s: string)
      requires Valid()
      modifies this
      ensures Valid()
      ensures boxText == s
      ensures old(boxText) == s ==>
        (text == old(text) && previousText == old(previousText) && changes == old(changes))
      ensures old(boxText) != s ==>
        (text == Some(s) && previousText == s && changes == old(changes) + Notify(old(previousText), s))
    {
      if boxText != s {
        boxText := s;
        InputBoxTextChanged();
      }
    }

    /** `InputBox_TextChanged`: `Text` follows the box, and a box text different from the text
        last reported is reported as a change from it. */
    method InputBoxTextChanged()
      requires Valid()
      modifies this
      ensures Valid()
      ensures boxText == old(boxText) && text == Some(boxText) && previousText == boxText
      ensures changes == old(changes) + Notify(old(previousText), boxText)
      decreases 1
    {
      var newText := boxText;
      var oldText := previousText;
      if text != Some(newText) {
        text := Some(newText);
        OnTextPropertyChanged(Some(newText));
      }
      if oldText != newText {
        ChainExtend([], changes, oldText, newText);
        previousText := newText;
        changes := changes + [Change(oldText, newText)];
      }
    }
  }

  /** Two edits in a row: the second notification starts where the first one ended. */
  method TypeTwice(control: TextInputControl, first: string, second: string)
    requires control.Valid() && control.boxText == control.previousText
    requires control.previousText != first && first != second
    modifies control
    ensures control.changes == old(control.changes) + [Change(old(control.previousText), first), Change(first, second)]
    ensures control.text == Some(second)
  {
    control.Type(first);
    control.Type(second);
  }
}
