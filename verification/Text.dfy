/** Splitting text at its last separator. */
module Text {

  predicate Without(text: string, sep: char) {
    forall i :: 0 <= i < |text| ==> text[i] != sep
  }

  /** The position just after the last separator, or zero. */
  function AfterLast(text: string, sep: char): (at: nat)
    ensures at <= |text|
    ensures at > 0 ==> text[at - 1] == sep
    ensures Without(text[at..], sep)
  {
    if text == "" then 0
    else if text[|text| - 1] == sep then |text|
    else
      var shorter := text[..|text| - 1];
      var at := AfterLast(shorter, sep);
      assert text[at..] == shorter[at..] + [text[|text| - 1]];
      at
  }

  /** A tail without the separator starts just after the last one. */
  lemma {:induction false} LastSeparator(head: string, sep: char, tail: string)
    requires Without(tail, sep)
    ensures AfterLast(head + [sep] + tail, sep) == |head| + 1
  {
    var text := head + [sep] + tail;
    if tail != "" {
      assert text[..|text| - 1] == head + [sep] + tail[..|tail| - 1];
      LastSeparator(head, sep, tail[..|tail| - 1]);
    }
  }

  lemma {:induction false} LastIsNotBefore(text: string, sep: char, i: nat)
    requires i < |text| && text[i] == sep
    ensures AfterLast(text, sep) > i
  {
    if text[|text| - 1] != sep {
      LastIsNotBefore(text[..|text| - 1], sep, i);
    }
  }

  datatype Cut = Whole | Cut(head: string, tail: string)

  /** `text.rsplit(sep, 1)`. */
  function CutAtLast(text: string, sep: char): Cut {
    var at := AfterLast(text, sep);
    if at == 0 then Whole else Cut(text[..at - 1], text[at..])
  }

  lemma CutIsInverse(head: string, sep: char, tail: string)
    requires Without(tail, sep)
    ensures CutAtLast(head + [sep] + tail, sep) == Cut(head, tail)
  {
    var text := head + [sep] + tail;
    LastSeparator(head, sep, tail);
    assert text[..|head|] == head && text[|head| + 1..] == tail;
  }
}
