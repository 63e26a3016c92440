/** The HTML escaping bot.py applies to spreadsheet text before sending it
    with Telegram's HTML parse mode (bot.py:3803-3811): three chained
    `str.replace` calls, for `<`, `>` and `&` in that order. Because `&` is
    replaced last, the `&` of the `&lt;` and `&gt;` just produced is escaped
    again, and a `<` in a project name reaches the reader as the text
    `&lt;`. The corrected chain escapes `&` first; it is inverted by
    `Unescape`. */
module Markup {
  import Text

  /** The replacement chain as bot.py writes it. */
  function EscapeAsWritten(s: string): (r: string)
    ensures '<' !in r && '>' !in r
  {
    var a := Text.Replace(s, '<', "&lt;");
    var b := Text.Replace(a, '>', "&gt;");
    Text.ReplaceKeepsOut(a, '>', "&gt;", '<');
    Text.ReplaceKeepsOut(b, '&', "&amp;", '<');
    Text.ReplaceKeepsOut(b, '&', "&amp;", '>');
    Text.Replace(b, '&', "&amp;")
  }

  /** The chain with `&` escaped first. */
  function Escape(s: string): (r: string)
    ensures '<' !in r && '>' !in r
  {
    var a := Text.Replace(s, '&', "&amp;");
    var b := Text.Replace(a, '<', "&lt;");
    Text.ReplaceKeepsOut(b, '>', "&gt;", '<');
    Text.Replace(b, '>', "&gt;")
  }

  /** The entity one character escapes to. */
  function EscapeChar(c: char): string
  {
    if c == '&' then "&amp;" else if c == '<' then "&lt;" else if c == '>' then "&gt;" else [c]
  }

  /** What an HTML reader shows for escaped text: the three entities read
      back as their characters, everything else as itself. */
  function Unescape(s: string): string
    decreases |s|
  {
    if |s| == 0 then ""
    else if |s| >= 5 && s[..5] == "&amp;" then "&" + Unescape(s[5..])
    else if |s| >= 4 && s[..4] == "&lt;" then "<" + Unescape(s[4..])
    else if |s| >= 4 && s[..4] == "&gt;" then ">" + Unescape(s[4..])
    else [s[0]] + Unescape(s[1..])
  }

  lemma ReplaceCons(c: char, t: string, x: char, rep: string)
    ensures Text.Replace([c] + t, x, rep) == (if c == x then rep else [c]) + Text.Replace(t, x, rep)
  {
    assert ([c] + t)[1..] == t;
  }

  /** Escaping works character by character. */
  lemma EscapeCons(c: char, t: string)
    ensures Escape([c] + t) == EscapeChar(c) + Escape(t)
  {
    EscapeAppend([c], t);
    EscapeOne(c);
  }

  lemma EscapeAppend(x: string, y: string)
    ensures Escape(x + y) == Escape(x) + Escape(y)
  {
    Text.ReplaceAppend(x, y, '&', "&amp;");
    var x1, y1 := Text.Replace(x, '&', "&amp;"), Text.Replace(y, '&', "&amp;");
    Text.ReplaceAppend(x1, y1, '<', "&lt;");
    var x2, y2 := Text.Replace(x1, '<', "&lt;"), Text.Replace(y1, '<', "&lt;");
    Text.ReplaceAppend(x2, y2, '>', "&gt;");
  }

  lemma EscapeOne(c: char)
    ensures Escape([c]) == EscapeChar(c)
  {
    assert [c] == [c] + "";
    ReplaceCons(c, "", '&', "&amp;");
    var e1 := if c == '&' then "&amp;" else [c];
    assert Text.Replace([c], '&', "&amp;") == e1;
    if c == '&' {
      Text.ReplaceNoop("&amp;", '<', "&lt;");
      Text.ReplaceNoop("&amp;", '>', "&gt;");
    } else if c == '<' {
      LessThanEscaped();
      Text.ReplaceNoop("&lt;", '>', "&gt;");
    } else if c == '>' {
      Text.ReplaceNoop(">", '<', "&lt;");
      ReplaceCons('>', "", '>', "&gt;");
    } else {
      Text.ReplaceNoop([c], '<', "&lt;");
      Text.ReplaceNoop([c], '>', "&gt;");
    }
  }

  lemma UnescapeCons(c: char, rest: string)
    ensures Unescape(EscapeChar(c) + rest) == [c] + Unescape(rest)
  {
    var e := EscapeChar(c) + rest;
    if c == '&' {
      assert e[..5] == "&amp;" && e[5..] == rest;
    } else if c == '<' {
      assert e[..4] == "&lt;" && e[4..] == rest;
      assert |e| >= 5 ==> e[..5][1] == 'l';
    } else if c == '>' {
      assert e[..4] == "&gt;" && e[4..] == rest;
      assert |e| >= 5 ==> e[..5][1] == 'g';
      assert e[..4][1] == 'g';
    } else {
      assert e[0] == c && e[1..] == rest;
      assert |e| >= 4 ==> e[..4][0] == c;
      assert |e| >= 5 ==> e[..5][0] == c;
    }
  }

  /** Escaping with `&` first loses nothing: the reader sees exactly the
      original text. */
  lemma {:induction false} EscapeRoundTrip(s: string)
    ensures Unescape(Escape(s)) == s
    decreases |s|
  {
    if |s| > 0 {
      assert s == [s[0]] + s[1..];
      EscapeCons(s[0], s[1..]);
      UnescapeCons(s[0], Escape(s[1..]));
      EscapeRoundTrip(s[1..]);
    }
  }

  /** bot.py's chain escapes a `<` twice: "<" becomes "&amp;lt;", which the
      reader sees as "&lt;" rather than "<". */
  lemma EscapeAsWrittenDoubleEscapes()
    ensures EscapeAsWritten("<") == "&amp;lt;"
    ensures Unescape(EscapeAsWritten("<")) == "&lt;" != "<"
  {
    LessThanEscaped();
    Text.ReplaceNoop("&lt;", '>', "&gt;");
    AmpersandEscapedAgain();
    UnescapeDoubled();
  }

  lemma LessThanEscaped()
    ensures Text.Replace("<", '<', "&lt;") == "&lt;"
  {
    assert "<" == ['<'] + "";
    ReplaceCons('<', "", '<', "&lt;");
  }

  lemma AmpersandEscapedAgain()
    ensures Text.Replace("&lt;", '&', "&amp;") == "&amp;lt;"
  {
    assert "&lt;" == ['&'] + "lt;";
    ReplaceCons('&', "lt;", '&', "&amp;");
    Text.ReplaceNoop("lt;", '&', "&amp;");
  }

  lemma UnescapeDoubled()
    ensures Unescape("&amp;lt;") == "&lt;"
  {
    var u := "&amp;lt;";
    assert u[..5] == "&amp;" && u[5..] == "lt;";
    var v := "lt;";
    assert v[..4 - 1] == v;
    assert Unescape("lt;") == "lt;";
  }
}
