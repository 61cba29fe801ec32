/** Text helpers shared by name generation, compaction and polling. */
module Texts {
  import opened Common

  predicate IsSpace(c: char) {
    c in {' ', '\t', '\n', '\r', '\U{0B}', '\U{0C}', '\U{1C}', '\U{1D}', '\U{1E}', '\U{1F}'}
  }

  function LowerChar(c: char): char {
    if 'A' <= c <= 'Z' then c - 'A' + 'a' else c
  }

  function Lower(text: string): (lower: string)
    ensures |lower| == |text| && forall i :: 0 <= i < |text| ==> lower[i] == LowerChar(text[i])
  {
    seq(|text|, i requires 0 <= i < |text| => LowerChar(text[i]))
  }

  function StripLeft(text: string, drop: char -> bool): (r: string)
    ensures r != "" ==> !drop(r[0])
    ensures forall c :: c in r ==> c in text
    ensures (forall c :: c in text ==> !drop(c)) ==> r == text
  {
    if text != "" && drop(text[0]) then StripLeft(text[1..], drop) else text
  }

  function StripRight(text: string, drop: char -> bool): (r: string)
    ensures r != "" ==> !drop(r[|r| - 1])
    ensures r <= text
    ensures (forall c :: c in text ==> !drop(c)) ==> r == text
  {
    if text != "" && drop(text[|text| - 1]) then StripRight(text[..|text| - 1], drop) else text
  }

  function StripChars(text: string, drop: char -> bool): string {
    StripRight(StripLeft(text, drop), drop)
  }

  function Strip(text: string): string {
    StripChars(text, IsSpace)
  }

  lemma {:induction false} LeftStripped(text: string, drop: char -> bool)
    ensures var r := StripLeft(text, drop);
            |r| <= |text| && r == text[|text| - |r|..] && forall i :: 0 <= i < |text| - |r| ==> drop(text[i])
  {
    if text == "" || !drop(text[0]) {
    } else {
      var rest := text[1..];
      LeftStripped(rest, drop);
      assert forall i :: 1 <= i < |text| ==> text[i] == rest[i - 1];
    }
  }

  lemma {:induction false} RightStripped(text: string, drop: char -> bool)
    ensures var r := StripRight(text, drop);
            forall i :: |r| <= i < |text| ==> drop(text[i])
  {
    if text == "" || !drop(text[|text| - 1]) {
    } else {
      RightStripped(text[..|text| - 1], drop);
    }
  }

  /** Before `from` and from `to` on there is nothing but what is dropped, and neither end in between is. */
  ghost predicate Bounds(text: string, drop: char -> bool, from: nat, to: nat)
    requires from <= to <= |text|
  {
    && (forall i :: 0 <= i < from ==> drop(text[i]))
    && (forall i :: to <= i < |text| ==> drop(text[i]))
    && (from < to ==> !drop(text[from]) && !drop(text[to - 1]))
  }

  /** Stripping takes away what is dropped at either end, and nothing else. */
  lemma StrippedExactly(text: string, drop: char -> bool)
    ensures exists from, to :: 0 <= from <= to <= |text| && Bounds(text, drop, from, to) && StripChars(text, drop) == text[from..to]
  {
    var left := StripLeft(text, drop);
    var kept := StripRight(left, drop);
    var from := |text| - |left|;
    var to := from + |kept|;
    LeftStripped(text, drop);
    RightStripped(left, drop);
    hide StripLeft, StripRight;
    assert kept == left[..|kept|];
    assert kept == text[from..to];
    forall i | to <= i < |text|
      ensures drop(text[i])
    {
      assert text[i] == left[i - from];
    }
    assert from < to ==> text[from] == kept[0] && text[to - 1] == kept[|kept| - 1];
    assert Bounds(text, drop, from, to);
  }

  // ── Joining ───────────────────────────────────────────────────────────────

  function Join(words: seq<string>, separator: string): string {
    if words == [] then ""
    else if |words| == 1 then words[0]
    else Join(words[..|words| - 1], separator) + separator + words[|words| - 1]
  }

  lemma JoinNext(words: seq<string>, last: string, separator: string)
    ensures Join(words + [last], separator) == if words == [] then last else Join(words, separator) + separator + last
  {
    assert (words + [last])[..|words|] == words;
  }

  lemma JoinFew(separator: string)
    ensures Join([], separator) == "" && forall word :: Join([word], separator) == word
  {
  }

  /** With no words, one word, and more. */
  lemma {:induction false} JoinConcat(a: seq<string>, b: seq<string>, separator: string)
    ensures Join([], separator) == "" && forall word :: Join([word], separator) == word
    ensures Join(a + b, separator) ==
      if a == [] then Join(b, separator) else if b == [] then Join(a, separator) else Join(a, separator) + separator + Join(b, separator)
  {
    JoinFew(separator);
    hide Join;
    if b == [] {
      assert a + b == a;
    } else if a == [] {
      assert a + b == b;
    } else {
      var init, last := b[..|b| - 1], b[|b| - 1];
      JoinConcat(a, init, separator);
      JoinNext(a + init, last, separator);
      JoinNext(init, last, separator);
      assert a + b == a + init + [last] && b == init + [last];
      Regrouped(Join(a, separator) + separator, Join(init, separator), separator + last);
      Regrouped(Join(a, separator) + separator + Join(init, separator), separator, last);
      Regrouped(Join(init, separator), separator, last);
    }
  }

  lemma Regrouped(a: string, b: string, c: string)
    ensures a + b + c == a + (b + c)
  {
  }

  /** Joined without a separator, the words stand one after another. */
  lemma {:induction false} JoinConcatenates(words: seq<string>)
    ensures Concatenates(Join(words, ""), words)
  {
    if words == [] {
      ConcatenatesNothing<char>();
    } else {
      var n := |words| - 1;
      JoinConcatenates(words[..n]);
      ConcatenatesNext(Join(words[..n], ""), words[..n], words[n]);
      assert words == words[..n] + [words[n]];
      if n == 0 { assert Join(words[..n], "") + words[n] == words[n]; }
      assert Join(words[..n], "") + "" == Join(words[..n], "");
    }
  }
}
