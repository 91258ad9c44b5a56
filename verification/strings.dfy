/**
 * The handful of Python `str` operations the program relies on: `lower`,
 * `strip`, `split(sep)`, `split()`, `join`, `startswith` and `endswith`.
 * Case folding covers ASCII letters only; whitespace is Python's own set.
 */
module Strings {

  /** Python's `str.isspace()` on one character. */
  predicate IsSpace(c: char) {
    || ('\t' <= c <= '\r')
    || ('\U{1c}' <= c <= ' ')
    || c == '\U{85}' || c == '\U{a0}' || c == '\U{1680}'
    || ('\U{2000}' <= c <= '\U{200a}')
    || c == '\U{2028}' || c == '\U{2029}' || c == '\U{202f}' || c == '\U{205f}' || c == '\U{3000}'
  }

  predicate NoSpace(s: string) {
    forall i :: 0 <= i < |s| ==> !IsSpace(s[i])
  }

  function LowerChar(c: char): char {
    if 'A' <= c <= 'Z' then (c as int + 32) as char else c
  }

  /** `s.lower()`, folding the ASCII letters A-Z. */
  function Lower(s: string): string {
    seq(|s|, i requires 0 <= i < |s| => LowerChar(s[i]))
  }

  /** Lower-casing twice is lower-casing once. */
  lemma LowerIdempotent(s: string)
    ensures Lower(Lower(s)) == Lower(s)
  {
  }

  predicate StartsWith(s: string, prefix: string) {
    prefix <= s
  }

  predicate EndsWith(s: string, suffix: string) {
    |suffix| <= |s| && s[|s| - |suffix|..] == suffix
  }

  function Repeat(c: char, n: nat): (r: string)
    ensures |r| == n && forall i :: 0 <= i < n ==> r[i] == c
  {
    seq(n, _ => c)
  }

  /** `s.lstrip()`: the suffix of `s` left after dropping leading whitespace. */
  function TrimStart(s: string): (r: string)
    ensures |r| <= |s| && r == s[|s| - |r|..]
    ensures r == "" || !IsSpace(r[0])
    ensures forall i :: 0 <= i < |s| - |r| ==> IsSpace(s[i])
  {
    if |s| > 0 && IsSpace(s[0]) then TrimStart(s[1..]) else s
  }

  /** `s.rstrip()`: the prefix of `s` left after dropping trailing whitespace. */
  function TrimEnd(s: string): (r: string)
    ensures |r| <= |s| && r == s[..|r|]
    ensures r == "" || !IsSpace(r[|r| - 1])
    ensures forall i :: |r| <= i < |s| ==> IsSpace(s[i])
  {
    if |s| > 0 && IsSpace(s[|s| - 1]) then TrimEnd(s[..|s| - 1]) else s
  }

  /** `s.strip()`. */
  function Strip(s: string): string {
    TrimEnd(TrimStart(s))
  }

  /** A string strips to nothing exactly when every character is whitespace. */
  lemma StripBlank(s: string)
    ensures Strip(s) == "" <==> forall i :: 0 <= i < |s| ==> IsSpace(s[i])
  {
    var t := TrimStart(s);
    if Strip(s) == "" {
      forall i | 0 <= i < |s| ensures IsSpace(s[i]) {
        if i >= |s| - |t| {
          assert s[i] == t[i - (|s| - |t|)];
        }
      }
    } else {
      var r := Strip(s);
      assert r == t[..|r|] && |r| > 0;
      assert s[|s| - |t|] == t[0] == r[0];
    }
  }

  /** Stripping twice is stripping once. */
  lemma StripIdempotent(s: string)
    ensures Strip(Strip(s)) == Strip(s)
  {
    var r := Strip(s);
    assert TrimStart(r) == r;
  }

  /** `sep.join(parts)`. */
  function Join(parts: seq<string>, sep: string): string {
    if |parts| == 0 then ""
    else if |parts| == 1 then parts[0]
    else parts[0] + sep + Join(parts[1..], sep)
  }

  /** `s.split(sep)` for a one-character separator: never empty, and joining the pieces gives `s` back. */
  function Split(s: string, sep: char): (r: seq<string>)
    ensures |r| >= 1
    ensures forall i :: 0 <= i < |r| ==> sep !in r[i]
    ensures Join(r, [sep]) == s
  {
    if |s| == 0 then [""]
    else
      var rest := Split(s[1..], sep);
      if s[0] == sep then
        assert Join([""] + rest, [sep]) == "" + [sep] + Join(rest, [sep]);
        [""] + rest
      else
        var r := [[s[0]] + rest[0]] + rest[1..];
        assert |rest| > 1 ==> Join(rest, [sep]) == rest[0] + [sep] + Join(rest[1..], [sep]);
        assert r[1..] == rest[1..];
        r
  }

  /** A string without the separator splits into itself alone. */
  lemma {:induction false} SplitWithoutSeparator(s: string, sep: char)
    requires sep !in s
    ensures Split(s, sep) == [s]
  {
    if |s| > 0 {
      SplitWithoutSeparator(s[1..], sep);
    }
  }

  /**
   * The items of `text.split(",")`, each stripped, the blank ones dropped,
   * in their original order: `[i.strip() for i in text.split(",") if i.strip()]`.
   */
  function StrippedItems(items: seq<string>): (r: seq<string>)
    ensures |r| <= |items|
    ensures forall i :: 0 <= i < |r| ==> r[i] != "" && Strip(r[i]) == r[i]
  {
    if |items| == 0 then []
    else
      var rest := StrippedItems(items[1..]);
      var head := Strip(items[0]);
      if head == "" then rest
      else
        StripIdempotent(items[0]);
        StrippedCons(head, rest);
        [head] + rest
  }

  lemma StrippedCons(head: string, rest: seq<string>)
    requires head != "" && Strip(head) == head
    requires forall i :: 0 <= i < |rest| ==> rest[i] != "" && Strip(rest[i]) == rest[i]
    ensures forall i :: 0 <= i < |rest| + 1 ==> ([head] + rest)[i] != "" && Strip(([head] + rest)[i]) == ([head] + rest)[i]
  {
    forall i | 0 <= i < |rest| + 1
      ensures ([head] + rest)[i] != "" && Strip(([head] + rest)[i]) == ([head] + rest)[i]
    {
      if i > 0 {
        assert ([head] + rest)[i] == rest[i - 1];
      }
    }
  }

  function CommaItems(text: string): seq<string> {
    StrippedItems(Split(text, ','))
  }

  /** A blank text has no comma items. */
  lemma CommaItemsOfBlank(text: string)
    requires Strip(text) == ""
    ensures CommaItems(text) == []
  {
    StripBlank(text);
    forall i | 0 <= i < |text| ensures text[i] != ',' {
      assert IsSpace(text[i]);
    }
    SplitWithoutSeparator(text, ',');
  }

  /** Every item in the list is kept when each is already stripped and non-blank. */
  lemma {:induction false} CommaItemsOfJoin(items: seq<string>)
    requires forall i :: 0 <= i < |items| ==> items[i] != "" && Strip(items[i]) == items[i] && ',' !in items[i]
    ensures StrippedItems(items) == items
  {
    if |items| > 0 {
      CommaItemsOfJoin(items[1..]);
    }
  }

  /** The longest prefix of `s` without whitespace. */
  function TakeWord(s: string): (w: string)
    ensures |w| <= |s| && w == s[..|w|] && NoSpace(w)
    ensures |w| == |s| || IsSpace(s[|w|])
  {
    if |s| == 0 || IsSpace(s[0]) then "" else [s[0]] + TakeWord(s[1..])
  }

  /** `s.split()`: the maximal runs of non-whitespace characters, in order. */
  function Words(s: string): (r: seq<string>)
    ensures forall i :: 0 <= i < |r| ==> r[i] != "" && NoSpace(r[i])
    decreases |s|
  {
    var t := TrimStart(s);
    if t == "" then []
    else
      var w := TakeWord(t);
      assert !IsSpace(t[0]);
      var rest := Words(t[|w|..]);
      WordsConsValid(w, rest);
      [w] + rest
  }

  lemma WordsConsValid(w: string, rest: seq<string>)
    requires w != "" && NoSpace(w)
    requires forall i :: 0 <= i < |rest| ==> rest[i] != "" && NoSpace(rest[i])
    ensures forall i :: 0 <= i < |rest| + 1 ==> ([w] + rest)[i] != "" && NoSpace(([w] + rest)[i])
  {
    forall i | 0 <= i < |rest| + 1
      ensures ([w] + rest)[i] != "" && NoSpace(([w] + rest)[i])
    {
      if i > 0 {
        assert ([w] + rest)[i] == rest[i - 1];
      }
    }
  }

  lemma {:induction false} TakeWordOf(w: string, rest: string)
    requires NoSpace(w)
    requires rest == "" || IsSpace(rest[0])
    ensures TakeWord(w + rest) == w
  {
    if |w| > 0 {
      assert (w + rest)[1..] == w[1..] + rest;
      TakeWordOf(w[1..], rest);
    } else {
      assert w + rest == rest;
    }
  }

  /** A leading space does not change the words. */
  lemma WordsAfterSpace(j: string)
    requires j == "" || !IsSpace(j[0])
    ensures Words(" " + j) == Words(j)
  {
    assert (" " + j)[1..] == j;
    assert TrimStart(" " + j) == TrimStart(j) == j;
  }

  /** A word followed by nothing or by whitespace is the first word. */
  lemma WordsCons(w: string, rest: string)
    requires w != "" && NoSpace(w)
    requires rest == "" || IsSpace(rest[0])
    ensures Words(w + rest) == [w] + Words(rest)
  {
    var s := w + rest;
    assert s[0] == w[0];
    assert TrimStart(s) == s;
    TakeWordOf(w, rest);
    assert s[|w|..] == rest;
  }

  /** A join starts with the first part's first character. */
  lemma JoinHead(ws: seq<string>, sep: string)
    requires |ws| >= 1 && ws[0] != ""
    ensures Join(ws, sep) != "" && Join(ws, sep)[0] == ws[0][0]
  {
    if |ws| > 1 {
      assert Join(ws, sep) == ws[0] + (sep + Join(ws[1..], sep));
    }
  }

  /** One step of the round trip: the first word, then the words of the rest of the join. */
  lemma WordsOfJoinStep(ws: seq<string>)
    requires |ws| > 1 && ws[0] != "" && NoSpace(ws[0]) && ws[1] != ""
    ensures Words(Join(ws, " ")) == [ws[0]] + Words(Join(ws[1..], " "))
  {
    var j := Join(ws[1..], " ");
    assert Join(ws, " ") == ws[0] + (" " + j);
    WordsCons(ws[0], " " + j);
    JoinHead(ws[1..], " ");
  }

  /** A non-empty sequence is its head followed by its tail. */
  lemma HeadTail<T>(s: seq<T>)
    requires |s| > 0
    ensures [s[0]] + s[1..] == s
  {
  }

  /** Dropping the head of a cons gives the tail back. */
  lemma ConsTail<T>(x: T, rest: seq<T>)
    ensures ([x] + rest)[0] == x && ([x] + rest)[1..] == rest
  {
  }

  /** Concatenation is associative: a helper for regrouping sequences. */
  lemma ConcatAssociative<T>(a: seq<T>, b: seq<T>, c: seq<T>)
    ensures a + (b + c) == a + b + c
  {
  }

  lemma PrefixStep<T>(s: seq<T>, i: int)
    requires 0 <= i < |s|
    ensures s[..i + 1] == s[..i] + [s[i]]
  {
  }

  lemma PrefixWhole<T>(s: seq<T>)
    ensures s[..|s|] == s
  {
  }

  /** A single word splits to itself. */
  lemma WordsOfWord(w: string)
    requires w != "" && NoSpace(w)
    ensures Words(w) == [w]
  {
    TakeWordOf(w, "");
    assert w + "" == w;
    assert TrimStart(w) == w;
    assert w[|w|..] == "";
  }

  /** Joining words with single spaces and splitting on whitespace gives the words back. */
  lemma {:induction false} WordsOfJoin(ws: seq<string>)
    requires forall i :: 0 <= i < |ws| ==> ws[i] != "" && NoSpace(ws[i])
    ensures Words(Join(ws, " ")) == ws
  {
    if |ws| == 1 {
      WordsOfWord(ws[0]);
    } else if |ws| > 1 {
      var tail := ws[1..];
      assert Words(Join(tail, " ")) == tail by { WordsOfJoin(tail); }
      WordsOfJoinStep(ws);
      HeadTail(ws);
    }
  }

  /** A separator-free piece followed by the separator is the first item of the split. */
  lemma {:induction false} SplitCons(x: string, rest: string, sep: char)
    requires sep !in x
    ensures Split(x + [sep] + rest, sep) == [x] + Split(rest, sep)
  {
    var s := x + [sep] + rest;
    if |x| == 0 {
      assert s == [sep] + rest && s[1..] == rest;
    } else {
      assert s[0] == x[0] && s[1..] == x[1..] + [sep] + rest;
      SplitCons(x[1..], rest, sep);
      assert [x[0]] + x[1..] == x;
    }
  }

  /** Splitting a join of separator-free pieces gives the pieces back. */
  lemma {:induction false} SplitJoin(xs: seq<string>, sep: char)
    requires |xs| >= 1
    requires forall i :: 0 <= i < |xs| ==> sep !in xs[i]
    ensures Split(Join(xs, [sep]), sep) == xs
  {
    if |xs| == 1 {
      SplitWithoutSeparator(xs[0], sep);
    } else {
      SplitJoin(xs[1..], sep);
      assert Join(xs, [sep]) == xs[0] + [sep] + Join(xs[1..], [sep]);
      SplitCons(xs[0], Join(xs[1..], [sep]), sep);
      assert xs == [xs[0]] + xs[1..];
    }
  }

  /** Every item with a blank in front, as `", ".join` leaves the items after the first once split at ",". */
  function Spaced(items: seq<string>): (r: seq<string>)
    ensures |r| == |items| && forall i :: 0 <= i < |r| ==> r[i] == " " + items[i]
  {
    seq(|items|, i requires 0 <= i < |items| => " " + items[i])
  }

  lemma {:induction false} JoinSpaced(items: seq<string>)
    requires |items| >= 1
    ensures Join(Spaced(items), ",") == " " + Join(items, ", ")
  {
    if |items| > 1 {
      JoinSpaced(items[1..]);
      assert Spaced(items)[1..] == Spaced(items[1..]);
    }
  }

  lemma Regroup(a: string, b: string, c: string, d: string)
    ensures a + b + (c + d) == a + (b + c) + d
  {
  }

  /** `", ".join(items)` split at "," gives the first item, then every other item with a blank in front. */
  lemma CommaSpaceJoin(items: seq<string>)
    requires |items| >= 1
    ensures Join(items, ", ") == Join([items[0]] + Spaced(items[1..]), ",")
  {
    var pieces := [items[0]] + Spaced(items[1..]);
    if |items| > 1 {
      var rest := Join(items[1..], ", ");
      assert pieces[1..] == Spaced(items[1..]);
      assert Join(pieces, ",") == items[0] + "," + Join(Spaced(items[1..]), ",");
      JoinSpaced(items[1..]);
      Regroup(items[0], ",", " ", rest);
      assert "," + " " == ", ";
    }
  }

  lemma StripLeadingBlank(item: string)
    requires item != "" && Strip(item) == item
    ensures Strip(" " + item) == item
  {
    var t := TrimStart(item);
    assert t != "" && item[0] == t[0];
    assert !IsSpace(item[0]);
    assert t == item;
    assert (" " + item)[1..] == item;
    assert TrimStart(" " + item) == t;
  }

  lemma {:induction false} StrippedSpaced(items: seq<string>)
    requires forall i :: 0 <= i < |items| ==> items[i] != "" && Strip(items[i]) == items[i]
    ensures StrippedItems(Spaced(items)) == items
  {
    if |items| > 0 {
      var tail := items[1..];
      assert StrippedItems(Spaced(tail)) == tail by {
        StrippedSpaced(tail);
      }
      assert Spaced(items)[1..] == Spaced(tail);
      StripLeadingBlank(items[0]);
      HeadTail(items);
    }
  }

  lemma StrippedPieces(items: seq<string>)
    requires |items| >= 1
    requires forall i :: 0 <= i < |items| ==> items[i] != "" && Strip(items[i]) == items[i]
    ensures StrippedItems([items[0]] + Spaced(items[1..])) == items
  {
    var pieces := [items[0]] + Spaced(items[1..]);
    assert pieces[0] == items[0] && pieces[1..] == Spaced(items[1..]);
    StrippedSpaced(items[1..]);
    assert StrippedItems(pieces) == [items[0]] + StrippedItems(pieces[1..]);
    assert [items[0]] + items[1..] == items;
  }

  lemma PiecesWithoutComma(items: seq<string>)
    requires |items| >= 1 && forall i :: 0 <= i < |items| ==> ',' !in items[i]
    ensures forall i :: 0 <= i < |items| ==> ',' !in ([items[0]] + Spaced(items[1..]))[i]
  {
    var pieces := [items[0]] + Spaced(items[1..]);
    forall i | 0 <= i < |pieces| ensures ',' !in pieces[i] {
      if i > 0 {
        assert pieces[i] == " " + items[i];
      }
    }
  }

  /**
   * Comma items are the inverse of `", ".join` on stripped, non-blank items
   * without commas: the round trip of a pattern list through a text field.
   */
  lemma CommaItemsOfCommaJoin(items: seq<string>)
    requires forall i :: 0 <= i < |items| ==> items[i] != "" && Strip(items[i]) == items[i] && ',' !in items[i]
    ensures CommaItems(Join(items, ", ")) == items
  {
    if |items| >= 1 {
      var pieces := [items[0]] + Spaced(items[1..]);
      CommaSpaceJoin(items);
      PiecesWithoutComma(items);
      SplitJoin(pieces, ',');
      StrippedPieces(items);
    }
  }
}
