/** `safe_text`: cut a list of message lines so that the message stays under
    Telegram's length limit, keeping the longest prefix of whole lines whose
    costs (length plus one for the newline) fit a budget and appending a
    "continued" marker when a line had to be dropped.

    bot.py (331-339) accumulates `line + "\n"` into a string and stops at the
    first line `l` with `len(text) + len(l) > MAX_TEXT`, which is a budget of
    `MAX_TEXT + 1` on the costs; bot3.py (516-532) stops at the first line
    whose cost would take the running total above `MAX_TEXT`, and joins the
    kept lines (and the marker, as one more element) with newlines. */
module Truncation {
  import Text

  /** `MAX_TEXT` of both bots. */
  const MaxText: nat := 3800

  /** The marker bot.py appends (its wording). */
  const BotMarker: string := "\n… (давоми бор)"

  /** The marker bot3.py appends as one more line (its wording). */
  const Bot3Marker: string := "\n… (давомі бор)"

  /** Length plus one newline, summed over `lines`. */
  function Cost(lines: seq<string>): nat
  {
    if |lines| == 0 then 0 else |lines[0]| + 1 + Cost(lines[1..])
  }

  lemma {:induction false} CostAppend(lines: seq<string>, l: string)
    ensures Cost(lines + [l]) == Cost(lines) + |l| + 1
    decreases |lines|
  {
    if |lines| > 0 {
      assert (lines + [l])[1..] == lines[1..] + [l];
      CostAppend(lines[1..], l);
    } else {
      assert [] + [l] == [l];
    }
  }

  /** How many leading lines the loop keeps under `budget`: it stops at the
      first line that does not fit. */
  function Kept(lines: seq<string>, budget: nat): (k: nat)
    ensures k <= |lines|
  {
    if |lines| == 0 || |lines[0]| + 1 > budget then 0
    else 1 + Kept(lines[1..], budget - (|lines[0]| + 1))
  }

  /** The kept prefix is the longest prefix that fits: a prefix fits the
      budget exactly when it is no longer than the kept one. */
  lemma {:induction false} KeptLongest(lines: seq<string>, budget: nat, k: nat)
    requires k <= |lines|
    ensures Cost(lines[..k]) <= budget <==> k <= Kept(lines, budget)
    decreases |lines|
  {
    if k > 0 {
      assert lines[..k][1..] == lines[1..][..k - 1];
      if |lines[0]| + 1 <= budget {
        KeptLongest(lines[1..], budget - (|lines[0]| + 1), k - 1);
      }
    }
  }

  /** The lines each followed by a newline, as bot.py accumulates them. */
  function Terminated(lines: seq<string>): (text: string)
    ensures |text| == Cost(lines)
  {
    if |lines| == 0 then ""
    else
      var init := lines[..|lines| - 1];
      CostAppend(init, lines[|lines| - 1]);
      assert lines == init + [lines[|lines| - 1]];
      Terminated(init) + lines[|lines| - 1] + "\n"
  }

  /** bot.py's result: the kept lines, newline-terminated, then the marker
      exactly when a line was dropped. */
  function BotSafeTextSpec(lines: seq<string>): string
  {
    var k := Kept(lines, MaxText + 1);
    Terminated(lines[..k]) + (if k < |lines| then BotMarker else "")
  }

  /** bot3.py's result: "" for no lines; otherwise the kept lines and, when a
      line was dropped, the marker, joined by newlines. */
  function Bot3SafeTextSpec(lines: seq<string>): string
  {
    if |lines| == 0 then ""
    else
      var k := Kept(lines, MaxText);
      Text.Join(lines[..k] + (if k < |lines| then [Bot3Marker] else []), '\n')
  }

  /** `safe_text` of bot.py (331-339). */
  method BotSafeText(lines: seq<string>) returns (text: string)
    ensures text == BotSafeTextSpec(lines)
  {
    text := "";
    var i := 0;
    while i < |lines|
      invariant 0 <= i <= |lines|
      invariant text == Terminated(lines[..i])
      invariant Cost(lines[..i]) <= MaxText + 1
    {
      var l := lines[i];
      assert lines[..i + 1] == lines[..i] + [l];
      CostAppend(lines[..i], l);
      if |text| + |l| > MaxText {
        KeptLongest(lines, MaxText + 1, i);
        KeptLongest(lines, MaxText + 1, i + 1);
        text := text + BotMarker;
        return;
      }
      text := text + l + "\n";
      i := i + 1;
    }
    KeptLongest(lines, MaxText + 1, i);
    assert lines[..i] == lines;
  }

  /** `safe_text` of bot3.py (516-532). */
  method Bot3SafeText(lines: seq<string>) returns (text: string)
    ensures text == Bot3SafeTextSpec(lines)
  {
    if |lines| == 0 {
      return "";
    }
    var result: seq<string> := [];
    var total := 0;
    var i := 0;
    while i < |lines|
      invariant 0 <= i <= |lines|
      invariant result == lines[..i]
      invariant total == Cost(lines[..i]) <= MaxText
    {
      var lineLength := |lines[i]| + 1;
      assert lines[..i + 1] == lines[..i] + [lines[i]];
      CostAppend(lines[..i], lines[i]);
      if total + lineLength > MaxText {
        KeptLongest(lines, MaxText, i);
        KeptLongest(lines, MaxText, i + 1);
        assert Kept(lines, MaxText) == i;
        result := result + [Bot3Marker];
        return Text.Join(result, '\n');
      }
      result := result + [lines[i]];
      total := total + lineLength;
      i := i + 1;
    }
    KeptLongest(lines, MaxText, i);
    assert Kept(lines, MaxText) == |lines|;
    assert result == lines[..|lines|] + [];
    text := Text.Join(result, '\n');
  }

  /** Nothing is cut from lines that fit: the whole input is kept and no
      marker is added. */
  lemma BotNoCutWhenFits(lines: seq<string>)
    requires Cost(lines) <= MaxText + 1
    ensures BotSafeTextSpec(lines) == Terminated(lines)
  {
    var k := Kept(lines, MaxText + 1);
    assert lines[..|lines|] == lines;
    KeptLongest(lines, MaxText + 1, |lines|);
    assert k == |lines|;
    assert BotSafeTextSpec(lines) == Terminated(lines[..k]) + "";
  }

  /** The text before bot.py's marker never exceeds `MAX_TEXT + 1`
      characters (the last kept line's newline may be the one past the
      limit). */
  lemma BotSafeTextBound(lines: seq<string>)
    ensures |BotSafeTextSpec(lines)| <= MaxText + 1 + |BotMarker|
  {
    var k := Kept(lines, MaxText + 1);
    KeptLongest(lines, MaxText + 1, k);
  }

  lemma {:induction false} JoinLength(lines: seq<string>)
    requires |lines| > 0
    ensures |Text.Join(lines, '\n')| == Cost(lines) - 1
    decreases |lines|
  {
    if |lines| > 1 {
      JoinLength(lines[1..]);
    }
  }

  /** bot3.py's kept lines, joined, stay within `MAX_TEXT`; with the marker
      the text is at most the marker's length longer. */
  lemma Bot3SafeTextBound(lines: seq<string>)
    ensures |Bot3SafeTextSpec(lines)| <= MaxText + |Bot3Marker|
  {
    if |lines| > 0 {
      var k := Kept(lines, MaxText);
      KeptLongest(lines, MaxText, k);
      if k < |lines| {
        var out := lines[..k] + [Bot3Marker];
        CostAppend(lines[..k], Bot3Marker);
        JoinLength(out);
        assert Bot3SafeTextSpec(lines) == Text.Join(out, '\n');
      } else {
        assert lines[..k] + [] == lines[..k];
        JoinLength(lines[..k]);
        assert Bot3SafeTextSpec(lines) == Text.Join(lines[..k], '\n');
      }
    }
  }

  /** bot3.py's result carries the marker exactly when a line was dropped,
      i.e. when the lines do not fit as a whole. */
  lemma Bot3MarkerIffCut(lines: seq<string>)
    requires |lines| > 0
    ensures Kept(lines, MaxText) < |lines| <==> Cost(lines) > MaxText
  {
    KeptLongest(lines, MaxText, |lines|);
    assert lines[..|lines|] == lines;
  }
}
