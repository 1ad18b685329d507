/**
  The regular-expression matcher of grep.c, against the language of the
  pattern.  Strings are the characters before the terminating NUL.
 */
module Grep {

  // ----- the language of a pattern -----

  datatype Item = One(c: char) | Many(c: char)      // c, or c*; c may be '.'

  // The items, and whether the pattern ends in an anchoring $.
  datatype Pattern = Pattern(items: seq<Item>, atEnd: bool)

  function Parse(re: string): Pattern
  {
    if re == "" then Pattern([], false)
    else if |re| >= 2 && re[1] == '*' then
      var p := Parse(re[2..]);
      Pattern([Many(re[0])] + p.items, p.atEnd)
    else if re == "$" then Pattern([], true)
    else
      var p := Parse(re[1..]);
      Pattern([One(re[0])] + p.items, p.atEnd)
  }

  predicate CharOk(c: char, x: char)
  {
    c == '.' || c == x
  }

  // Item i matches exactly the string w.
  ghost predicate ItemMatches(i: Item, w: string)
  {
    match i
    case One(c) => |w| == 1 && CharOk(c, w[0])
    case Many(c) => forall k :: 0 <= k < |w| ==> CharOk(c, w[k])
  }

  // w splits into one piece for each item.
  ghost predicate InLanguage(items: seq<Item>, w: string)
  {
    if items == [] then w == ""
    else exists k :: 0 <= k <= |w| && ItemMatches(items[0], w[..k]) && InLanguage(items[1..], w[k..])
  }

  // Some prefix of text is in the language, up to the end if the pattern says so.
  ghost predicate PrefixMatches(p: Pattern, text: string)
  {
    exists k :: 0 <= k <= |text| && InLanguage(p.items, text[..k]) && (p.atEnd ==> k == |text|)
  }

  // ... some substring.
  ghost predicate SomewhereMatches(p: Pattern, text: string)
  {
    exists i :: 0 <= i <= |text| && PrefixMatches(p, text[i..])
  }

  // ----- the matcher -----

  predicate MatchHere(re: string, text: string)
    decreases |re|, |text|, 0
  {
    if re == "" then true
    else if |re| >= 2 && re[1] == '*' then MatchStar(re[0], re[2..], text)
    else if re == "$" then text == ""
    else text != "" && (re[0] == '.' || re[0] == text[0]) && MatchHere(re[1..], text[1..])
  }

  // matchstar's loop: zero or more c, then re.
  predicate MatchStar(c: char, re: string, text: string)
    decreases |re| + 1, |text|, 1
  {
    MatchHere(re, text) || (text != "" && (text[0] == c || c == '.') && MatchStar(c, re, text[1..]))
  }

  // The loops of matchstar and match as they run over the text.
  method MatchStarLoop(c: char, re: string, text: string) returns (r: bool)
    ensures r == MatchStar(c, re, text)
  {
    var t := 0;
    while true
      invariant t <= |text| && MatchStar(c, re, text) == MatchStar(c, re, text[t..])
      decreases |text| - t
    {
      if MatchHere(re, text[t..]) {
        return true;
      }
      if t == |text| || !(text[t] == c || c == '.') {
        return false;
      }
      assert text[t..][1..] == text[t + 1..];
      t := t + 1;
    }
  }

  method Match(re: string, text: string) returns (r: bool)
    ensures re != "" && re[0] == '^' ==> (r <==> PrefixMatches(Parse(re[1..]), text))
    ensures re == "" || re[0] != '^' ==> (r <==> SomewhereMatches(Parse(re), text))
  {
    if re != "" && re[0] == '^' {
      HereIsPrefix(re[1..], text);
      return MatchHere(re[1..], text);
    }
    var t := 0;
    while true
      invariant t <= |text| && forall i :: 0 <= i < t ==> !PrefixMatches(Parse(re), text[i..])
      decreases |text| - t
    {
      HereIsPrefix(re, text[t..]);
      if MatchHere(re, text[t..]) {
        return true;
      }
      if t == |text| {
        return false;
      }
      t := t + 1;
    }
  }

  // ----- the matcher decides the language -----

  // After a star over j characters, the rest of the pattern matches.
  ghost predicate StarSplit(c: char, re: string, text: string)
  {
    exists j :: 0 <= j <= |text| && ItemMatches(Many(c), text[..j]) && PrefixMatches(Parse(re), text[j..])
  }

  lemma {:induction false} HereIsPrefix(re: string, text: string)
    ensures MatchHere(re, text) <==> PrefixMatches(Parse(re), text)
    decreases |re|, |text|, 0
  {
    if re == "" {
      assert text[..0] == "";
      assert InLanguage([], text[..0]);
    } else if |re| >= 2 && re[1] == '*' {
      StarIsSplit(re[0], re[2..], text);
      SplitIsPrefix(re, text);
    } else if re == "$" {
      assert text == "" ==> InLanguage([], text[..0]);
    } else {
      if text != "" {
        HereIsPrefix(re[1..], text[1..]);
      }
      OneIsPrefix(re, text);
    }
  }

  lemma {:induction false} StarIsSplit(c: char, re: string, text: string)
    ensures MatchStar(c, re, text) <==> StarSplit(c, re, text)
    decreases |re| + 1, |text|, 1
  {
    HereIsPrefix(re, text);
    assert text[0..] == text && text[..0] == "";
    if text != "" {
      StarIsSplit(c, re, text[1..]);
      if CharOk(c, text[0]) && StarSplit(c, re, text[1..]) {
        var j :| 0 <= j <= |text[1..]| && ItemMatches(Many(c), text[1..][..j])
          && PrefixMatches(Parse(re), text[1..][j..]);
        assert text[..j + 1] == [text[0]] + text[1..][..j] && text[j + 1..] == text[1..][j..];
        assert ItemMatches(Many(c), text[..j + 1]);
      }
    }
    if StarSplit(c, re, text) {
      var j :| 0 <= j <= |text| && ItemMatches(Many(c), text[..j]) && PrefixMatches(Parse(re), text[j..]);
      if j > 0 {
        assert text[..j][0] == text[0];
        assert text[1..][..j - 1] == text[..j][1..] && text[1..][j - 1..] == text[j..];
        assert ItemMatches(Many(c), text[1..][..j - 1]);
      }
    }
  }

  // Splitting off the starred item first is the same as taking the pattern as a whole.
  lemma SplitIsPrefix(re: string, text: string)
    requires |re| >= 2 && re[1] == '*'
    ensures StarSplit(re[0], re[2..], text) <==> PrefixMatches(Parse(re), text)
  {
    var p, q, item := Parse(re), Parse(re[2..]), Many(re[0]);
    assert p.items[0] == item && p.items[1..] == q.items && p.atEnd == q.atEnd;
    if StarSplit(re[0], re[2..], text) {
      var j :| 0 <= j <= |text| && ItemMatches(item, text[..j]) && PrefixMatches(q, text[j..]);
      Joined(p, q, item, text, j);
    }
    if PrefixMatches(p, text) {
      var k :| 0 <= k <= |text| && InLanguage(p.items, text[..k]) && (p.atEnd ==> k == |text|);
      var j :| 0 <= j <= |text[..k]| && ItemMatches(item, text[..k][..j]) && InLanguage(q.items, text[..k][j..]);
      assert text[..k][..j] == text[..j] && text[..k][j..] == text[j..][..k - j];
      assert PrefixMatches(q, text[j..]);
    }
  }

  lemma Joined(p: Pattern, q: Pattern, item: Item, text: string, j: nat)
    requires p.items != [] && p.items[0] == item && p.items[1..] == q.items && p.atEnd == q.atEnd
    requires j <= |text| && ItemMatches(item, text[..j]) && PrefixMatches(q, text[j..])
    ensures PrefixMatches(p, text)
  {
    var m :| 0 <= m <= |text[j..]| && InLanguage(q.items, text[j..][..m]) && (q.atEnd ==> m == |text[j..]|);
    var w := text[..j + m];
    assert w[..j] == text[..j] && w[j..] == text[j..][..m];
    assert InLanguage(p.items, w);
  }

  lemma OneIsPrefix(re: string, text: string)
    requires re != "" && re != "$" && !(|re| >= 2 && re[1] == '*')
    ensures PrefixMatches(Parse(re), text) <==>
      text != "" && CharOk(re[0], text[0]) && PrefixMatches(Parse(re[1..]), text[1..])
  {
    var p, q, item := Parse(re), Parse(re[1..]), One(re[0]);
    assert p.items[0] == item && p.items[1..] == q.items && p.atEnd == q.atEnd;
    if text != "" && CharOk(re[0], text[0]) && PrefixMatches(q, text[1..]) {
      assert ItemMatches(item, text[..1]);
      Joined(p, q, item, text, 1);
    }
    if PrefixMatches(p, text) {
      var k :| 0 <= k <= |text| && InLanguage(p.items, text[..k]) && (p.atEnd ==> k == |text|);
      var j :| 0 <= j <= |text[..k]| && ItemMatches(item, text[..k][..j]) && InLanguage(q.items, text[..k][j..]);
      assert j == 1 && text[..k][..1][0] == text[0];
      assert text[..k][1..] == text[1..][..k - 1];
      assert PrefixMatches(q, text[1..]);
    }
  }
}
