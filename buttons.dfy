/**
  ParseButtons, which the broadcast builder and the welcome editor each define with the same
  body (one copy per package): a newline-separated button spec becomes URL buttons packed two
  per row. Here it is defined once and used by both managers.
*/
module Buttons {
  import opened Options
  import opened Text
  import opened Telegram

  const Backtick: set<char> := {'`'}

  /**
    One line of a spec: blank lines and lines without `|` yield nothing; any other line yields
    one URL button whose label is the trimmed text before the first `|` and whose URL is the
    trimmed text after it with surrounding backticks removed (empty labels and URLs are kept).
  */
  function ParseLine(raw: string): (r: Option<KeyButton>)
    ensures r.Some? <==> '|' in raw
    ensures r.Some? ==> r.value.UrlButton?
  {
    var line := TrimSpace(raw);
    if line == [] then
      assert '|' !in raw by {
        if '|' in raw { TrimKeeps(raw, Whitespace, '|'); }
      }
      None
    else match Cut(line, '|')
      case None =>
        assert '|' !in raw by {
          if '|' in raw { TrimKeeps(raw, Whitespace, '|'); }
        }
        None
      case Some((before, after)) =>
        assert '|' in raw by { TrimSubsequence(raw, Whitespace, |before|); }
        Some(UrlButton(TrimSpace(before), Trim(TrimSpace(after), Backtick)))
  }

  /** A character that trimming may not remove survives trimming. */
  lemma {:induction false} TrimKeeps(s: string, cut: set<char>, x: char)
    requires x !in cut && x in s
    ensures x in Trim(s, cut)
    decreases |s|
  {
    if |s| > 0 && s[0] in cut {
      assert x in s[1..] by { var k :| 0 <= k < |s| && s[k] == x; assert k != 0; assert s[1..][k - 1] == x; }
      TrimKeeps(s[1..], cut, x);
    } else if |s| > 0 && s[|s| - 1] in cut {
      assert x in s[..|s| - 1] by {
        var k :| 0 <= k < |s| && s[k] == x; assert k != |s| - 1; assert s[..|s| - 1][k] == x;
      }
      TrimKeeps(s[..|s| - 1], cut, x);
    }
  }

  /** Every character of a trimmed string occurs in the original. */
  lemma {:induction false} TrimSubsequence(s: string, cut: set<char>, k: nat)
    requires k < |Trim(s, cut)|
    ensures Trim(s, cut)[k] in s
    decreases |s|
  {
    if |s| > 0 && s[0] in cut {
      TrimSubsequence(s[1..], cut, k);
    } else if |s| > 0 && s[|s| - 1] in cut {
      TrimSubsequence(s[..|s| - 1], cut, k);
    } else {
      assert Trim(s, cut) == s;
    }
  }

  /** The buttons one line contributes: none or one. */
  function LineButtons(raw: string): (bs: seq<KeyButton>)
    ensures |bs| <= 1
  {
    match ParseLine(raw) case None => [] case Some(b) => [b]
  }

  /** The buttons of the lines, in line order. */
  function Collect(lines: seq<string>): (bs: seq<KeyButton>)
    ensures |bs| <= |lines|
  {
    if lines == [] then [] else LineButtons(lines[0]) + Collect(lines[1..])
  }

  /** Collecting is compositional: the buttons of two blocks of lines, one after the other. */
  lemma {:induction false} CollectAppend(a: seq<string>, b: seq<string>)
    ensures Collect(a + b) == Collect(a) + Collect(b)
  {
    if a != [] {
      assert (a + b)[0] == a[0];
      assert (a + b)[1..] == a[1..] + b;
      CollectAppend(a[1..], b);
    } else {
      assert a + b == b;
    }
  }

  /** The rows laid end to end. */
  function Flatten(rows: Rows): seq<KeyButton> {
    if rows == [] then [] else rows[0] + Flatten(rows[1..])
  }

  /**
    Packs buttons two per row in order; a last row with a single button remains when the
    count is odd.
  */
  function Pack(bs: seq<KeyButton>): (rows: Rows)
    ensures Flatten(rows) == bs
    ensures |rows| == (|bs| + 1) / 2
    ensures forall k :: 0 <= k < |rows| ==>
              |rows[k]| == (if k == |rows| - 1 && |bs| % 2 == 1 then 1 else 2)
  {
    if |bs| == 0 then []
    else if |bs| == 1 then [[bs[0]]]
    else
      var rest := Pack(bs[2..]);
      assert ([bs[..2]] + rest)[1..] == rest;
      assert bs == bs[..2] + bs[2..];
      [bs[..2]] + rest
  }

  /** ParseButtons(data): the inline keyboard a stored or typed button spec describes. */
  function ParseButtons(data: string): Rows {
    Pack(Collect(Split(data, '\n')))
  }

  /** Row k of the parsed keyboard holds buttons 2k and 2k+1 of the collected buttons. */
  lemma {:induction false} PackRow(bs: seq<KeyButton>, k: nat)
    requires k < |Pack(bs)|
    ensures Pack(bs)[k] == bs[2 * k..if 2 * k + 2 <= |bs| then 2 * k + 2 else |bs|]
  {
    if k > 0 {
      var rest := bs[2..];
      PackRow(rest, k - 1);
      assert Pack(bs)[k] == Pack(rest)[k - 1];
      var hi := if 2 * k + 2 <= |bs| then 2 * k + 2 else |bs|;
      var hi' := if 2 * (k - 1) + 2 <= |rest| then 2 * (k - 1) + 2 else |rest|;
      assert hi' == hi - 2;
      SliceOfSuffix(bs, 2, 2 * (k - 1), hi', 2 * k, hi);
    } else if |bs| == 1 {
      assert Pack(bs)[0] == [bs[0]] == bs[0..1];
    } else {
      assert Pack(bs)[0] == bs[..2] == bs[0..2];
    }
  }

  // ---------------------------------------------------------------------------
  // Round trip

  /**
    A button the spec grammar can express: a URL button whose label holds no `|` and no
    newline, whose URL holds no newline, and neither of which starts or ends with white space
    (nor the URL with a backtick), since parsing trims those away.
  */
  predicate Expressible(b: KeyButton) {
    && b.UrlButton?
    && '|' !in b.text && '\n' !in b.text && '\n' !in b.url
    && Bare(b.text, Whitespace) && Bare(b.url, Whitespace) && Bare(b.url, Backtick)
  }

  /** The spec line for a button, in the documented `label | url` form. */
  function SpecLine(b: KeyButton): string
    requires Expressible(b)
  {
    b.text + " | " + b.url
  }

  function SpecLines(bs: seq<KeyButton>): (lines: seq<string>)
    requires forall k :: 0 <= k < |bs| ==> Expressible(bs[k])
    ensures |lines| == |bs|
  {
    if bs == [] then [] else [SpecLine(bs[0])] + SpecLines(bs[1..])
  }

  /** The spec text for a list of buttons, one line each. */
  function Serialize(bs: seq<KeyButton>): string
    requires forall k :: 0 <= k < |bs| ==> Expressible(bs[k])
  {
    if bs == [] then "" else Join(SpecLines(bs), '\n')
  }

  /** The text before the `|` of a spec line, once the line is trimmed. */
  function Before(t: string): string {
    if t == [] then [] else t + " "
  }

  /** The text after the `|` of a spec line, once the line is trimmed. */
  function After(u: string): string {
    if u == [] then [] else " " + u
  }

  /** The trimmed spec line neither starts nor ends with white space. */
  lemma SpecLineCoreBare(t: string, u: string)
    requires Bare(t, Whitespace) && Bare(u, Whitespace)
    ensures Bare(Before(t) + "|" + After(u), Whitespace)
  {
    var m := Before(t) + "|" + After(u);
    assert m[0] == if t == [] then '|' else t[0];
    assert m[|m| - 1] == if u == [] then '|' else u[|u| - 1];
  }

  /** Padding an empty label with the blank the trimmed line lost restores the text before the bar. */
  lemma BeforePadded(t: string)
    ensures (if t == [] then " " else []) + Before(t) == t + " "
  {
  }

  /** Padding an empty URL with the blank the trimmed line lost restores the text after the bar. */
  lemma AfterPadded(u: string)
    ensures After(u) + (if u == [] then " " else []) == " " + u
  {
  }

  /** The separator of a spec line is a bar between two blanks. */
  lemma SpacedBar()
    ensures " | " == " " + "|" + " "
  {
  }

  lemma Regroup<T>(a: seq<T>, b: seq<T>, c: seq<T>, d: seq<T>, e: seq<T>)
    ensures a + (b + c + d) + e == (a + b) + c + (d + e)
  {
  }

  /** Trimming a spec line drops the blank before the bar when the label is empty, and after it when the URL is. */
  lemma SpecLineTrimmed(t: string, u: string)
    requires Bare(t, Whitespace) && Bare(u, Whitespace)
    ensures TrimSpace(t + " | " + u) == Before(t) + "|" + After(u)
  {
    var m := Before(t) + "|" + After(u);
    SpecLineCoreBare(t, u);
    var p: string := if t == [] then " " else [];
    var q: string := if u == [] then " " else [];
    var line := t + " | " + u;
    SpacedBar();
    Regroup(t, " ", "|", " ", u);
    BeforePadded(t);
    AfterPadded(u);
    assert line == (p + Before(t)) + "|" + (After(u) + q);
    Regroup(p, Before(t), "|", After(u), q);
    assert line == p + m + q;
    TrimFramed(p, m, q, Whitespace);
  }

  lemma TrimBefore(t: string)
    requires Bare(t, Whitespace)
    ensures TrimSpace(Before(t)) == t
  {
    if t != [] {
      TrimFramed([], t, " ", Whitespace);
      assert [] + t + " " == Before(t);
    }
  }

  lemma TrimAfter(u: string)
    requires Bare(u, Whitespace)
    ensures TrimSpace(After(u)) == u
  {
    if u != [] {
      TrimFramed(" ", u, [], Whitespace);
      assert " " + u + [] == After(u);
    }
  }

  /** Parsing the spec line of an expressible button gives back the button. */
  lemma SpecLineRoundTrip(b: KeyButton)
    requires Expressible(b)
    ensures ParseLine(SpecLine(b)) == Some(b)
  {
    var t, u := b.text, b.url;
    SpecLineTrimmed(t, u);
    assert '|' !in Before(t);
    CutAfter(Before(t), '|', After(u));
    TrimBefore(t);
    TrimAfter(u);
    TrimBare(u, Backtick);
  }

  lemma {:induction false} CollectSpecLines(bs: seq<KeyButton>)
    requires forall k :: 0 <= k < |bs| ==> Expressible(bs[k])
    ensures Collect(SpecLines(bs)) == bs
  {
    if bs != [] {
      SpecLineRoundTrip(bs[0]);
      CollectSpecLines(bs[1..]);
      assert SpecLines(bs)[1..] == SpecLines(bs[1..]);
    }
  }

  /**
    Round trip: the spec written for expressible buttons parses back into exactly those
    buttons, packed two per row in their order.
  */
  lemma SerializeRoundTrip(bs: seq<KeyButton>)
    requires forall k :: 0 <= k < |bs| ==> Expressible(bs[k])
    ensures ParseButtons(Serialize(bs)) == Pack(bs)
  {
    if bs == [] {
      assert Split("", '\n') == [""];
      assert Collect([""]) == [];
    } else {
      var lines := SpecLines(bs);
      forall k | 0 <= k < |lines| ensures '\n' !in lines[k] {
        SpecLineHasNoNewline(bs, k);
      }
      SplitJoin(lines, '\n');
      CollectSpecLines(bs);
    }
  }

  lemma {:induction false} SpecLineHasNoNewline(bs: seq<KeyButton>, k: nat)
    requires forall j :: 0 <= j < |bs| ==> Expressible(bs[j])
    requires k < |bs|
    ensures '\n' !in SpecLines(bs)[k]
  {
    if k > 0 {
      SpecLineHasNoNewline(bs[1..], k - 1);
      assert SpecLines(bs)[k] == SpecLines(bs[1..])[k - 1];
    }
  }
}
