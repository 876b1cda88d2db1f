/** The attribute parsers of squirtle_core: `parse_style`, `parse_color` and
    `parse_float`.

    Python's `str.split`, `int(text, 16)` and the `svg_named_colors` table
    are written out here (the table as a map the caller supplies); Python's
    `float()` of text is a function parameter returning None where float()
    raises ValueError. */
module SvgAttributes {
  import opened Outcomes

  // ---------------------------------------------------------------------
  // str.split(sep) and its inverse

  /** `s.split(sep)` for a one-character separator: the pieces between the
      separators, always at least one. */
  function Split(s: string, sep: char): (r: seq<string>)
    ensures |r| >= 1
  {
    if s == [] then [""]
    else
      var rest := Split(s[1..], sep);
      if s[0] == sep then [""] + rest else [[s[0]] + rest[0]] + rest[1..]
  }

  /** `sep.join(parts)`. */
  function Join(parts: seq<string>, sep: char): string
  {
    if parts == [] then ""
    else if |parts| == 1 then parts[0]
    else parts[0] + [sep] + Join(parts[1..], sep)
  }

  /** Splitting loses nothing: joining the pieces gives the text back. */
  lemma {:induction false} SplitJoin(s: string, sep: char)
    ensures Join(Split(s, sep), sep) == s
  {
    if s != [] {
      var rest := Split(s[1..], sep);
      SplitJoin(s[1..], sep);
      if s[0] == sep {
        assert Split(s, sep) == [""] + rest;
        assert Join(Split(s, sep), sep) == [sep] + Join(rest, sep);
      } else {
        var first := [s[0]] + rest[0];
        assert Split(s, sep) == [first] + rest[1..];
        if |rest| == 1 {
          assert Join(Split(s, sep), sep) == first;
        } else {
          assert Join(rest, sep) == rest[0] + [sep] + Join(rest[1..], sep);
          assert Join(Split(s, sep), sep) == first + [sep] + Join(rest[1..], sep);
        }
      }
    }
  }

  /** No piece holds the separator, and there is one piece more than there
      are separators. */
  lemma {:induction false} SplitPieces(s: string, sep: char)
    ensures forall i :: 0 <= i < |Split(s, sep)| ==> sep !in Split(s, sep)[i]
    ensures |Split(s, sep)| == multiset(s)[sep] + 1
  {
    if s != [] {
      var rest := Split(s[1..], sep);
      SplitPieces(s[1..], sep);
      assert s == [s[0]] + s[1..];
      assert multiset(s) == multiset{s[0]} + multiset(s[1..]);
      if s[0] != sep {
        var r := Split(s, sep);
        assert r == [[s[0]] + rest[0]] + rest[1..];
        forall i | 0 <= i < |r| ensures sep !in r[i] {
          if i > 0 { assert r[i] == rest[i]; }
        }
      }
    }
  }

  // ---------------------------------------------------------------------
  // parse_style

  /** `key, value = item.split(':')` on an item that holds a colon: exactly
      one colon unpacks into two pieces, more raise ValueError. */
  function KeyValue(item: string): (r: Result<(string, string)>)
    requires ':' in item
  {
    var parts := Split(item, ':');
    if |parts| == 2 then Ok((parts[0], parts[1])) else Err(ValueError)
  }

  /** The dictionary `parse_style` has built after the given items, in
      order; items without a colon are skipped and a later key replaces an
      earlier one. */
  function StyleOf(items: seq<string>): (r: Result<map<string, string>>)
  {
    if items == [] then Ok(map[])
    else
      var d :- StyleOf(items[..|items| - 1]);
      var item := items[|items| - 1];
      if ':' !in item then Ok(d)
      else
        var kv :- KeyValue(item);
        Ok(d[kv.0 := kv.1])
  }

  /** `parse_style(string)`: split on ';' and fill a dictionary item by
      item. */
  method ParseStyle(s: string) returns (r: Result<map<string, string>>)
    ensures r == StyleOf(Split(s, ';'))
  {
    var items := Split(s, ';');
    var sdict: map<string, string> := map[];
    var i := 0;
    while i < |items|
      invariant 0 <= i <= |items|
      invariant StyleOf(items[..i]) == Ok(sdict)
    {
      var item := items[i];
      assert items[..i + 1][..i] == items[..i];
      if ':' in item {
        var parts := Split(item, ':');
        if |parts| != 2 {
          StyleErrorSticks(items, i + 1);
          return Err(ValueError);
        }
        sdict := sdict[parts[0] := parts[1]];
      }
      i := i + 1;
    }
    assert items[..i] == items;
    return Ok(sdict);
  }

  /** Once an item fails to unpack, the whole parse fails. */
  lemma {:induction false} StyleErrorSticks(items: seq<string>, i: nat)
    requires i <= |items| && StyleOf(items[..i]).Err?
    ensures StyleOf(items) == Err(ValueError)
    decreases |items| - i
  {
    if i == |items| {
      assert items[..i] == items;
      StyleErrorIsValueError(items);
    } else {
      assert items[..i + 1][..i] == items[..i];
      StyleErrorSticks(items, i + 1);
    }
  }

  lemma {:induction false} StyleErrorIsValueError(items: seq<string>)
    requires StyleOf(items).Err?
    ensures StyleOf(items) == Err(ValueError)
  {
    if items != [] && StyleOf(items[..|items| - 1]).Err? {
      StyleErrorIsValueError(items[..|items| - 1]);
    }
  }

  /** The parse succeeds exactly when no item holds two or more colons. */
  lemma {:induction false} StyleOkIff(items: seq<string>)
    ensures StyleOf(items).Ok? <==> forall i :: 0 <= i < |items| ==> multiset(items[i])[':'] <= 1
  {
    if items != [] {
      var front, item := items[..|items| - 1], items[|items| - 1];
      StyleOkIff(front);
      SplitPieces(item, ':');
      assert forall i :: 0 <= i < |front| ==> front[i] == items[i];
    }
  }

  /** An item holding one colon sets its key to its value unless a later
      item sets the same key again: the last assignment wins. */
  lemma {:induction false} StyleLastWins(items: seq<string>, i: nat, key: string, value: string)
    requires StyleOf(items).Ok?
    requires i < |items| && ':' in items[i] && KeyValue(items[i]) == Ok((key, value))
    requires forall j :: i < j < |items| && ':' in items[j] ==> KeyValue(items[j]).Ok? && KeyValue(items[j]).value.0 != key
    ensures key in StyleOf(items).value && StyleOf(items).value[key] == value
  {
    var front := items[..|items| - 1];
    if i < |items| - 1 {
      assert forall j :: i < j < |front| ==> front[j] == items[j];
      StyleLastWins(front, i, key, value);
    }
  }

  /** Every key of the result comes from some item that holds one colon. */
  lemma {:induction false} StyleKeysFromItems(items: seq<string>, key: string)
    requires StyleOf(items).Ok? && key in StyleOf(items).value
    ensures exists i :: 0 <= i < |items| && ':' in items[i] && KeyValue(items[i]).Ok? && KeyValue(items[i]).value.0 == key
  {
    var front, item := items[..|items| - 1], items[|items| - 1];
    if ':' in item && KeyValue(item).value.0 == key {
      assert ':' in items[|items| - 1];
    } else {
      StyleKeysFromItems(front, key);
      var i :| 0 <= i < |front| && ':' in front[i] && KeyValue(front[i]).Ok? && KeyValue(front[i]).value.0 == key;
      assert items[i] == front[i];
    }
  }

  // ---------------------------------------------------------------------
  // parse_color

  /** What `parse_color` returns: None, a gradient reference (the text of a
      `url(#id)`), an `[r, g, b, a]` list, or the caller's default. */
  datatype Paint = NoPaint | PaintRef(id: string) | Rgba(r: int, g: int, b: int, a: int)

  predicate IsHexDigit(ch: char)
  {
    '0' <= ch <= '9' || 'a' <= ch <= 'f' || 'A' <= ch <= 'F'
  }

  function HexDigitValue(ch: char): (v: nat)
    requires IsHexDigit(ch)
    ensures v < 16
  {
    if '0' <= ch <= '9' then ch as int - '0' as int
    else if 'a' <= ch <= 'f' then ch as int - 'a' as int + 10
    else ch as int - 'A' as int + 10
  }

  predicate AllHex(s: string)
  {
    forall i :: 0 <= i < |s| ==> IsHexDigit(s[i])
  }

  /** The value of a string of hexadecimal digits, most significant first. */
  function HexValue(s: string): (v: nat)
    requires AllHex(s)
  {
    if s == [] then 0 else HexValue(s[..|s| - 1]) * 16 + HexDigitValue(s[|s| - 1])
  }

  lemma {:induction false} HexValueBound(s: string)
    requires AllHex(s)
    ensures HexValue(s) < Pow16(|s|)
  {
    if s != [] {
      HexValueBound(s[..|s| - 1]);
    }
  }

  function Pow16(n: nat): (p: nat)
    ensures p >= 1
  {
    if n == 0 then 1 else 16 * Pow16(n - 1)
  }

  /** The characters Python 2's `int()` skips around the digits. */
  predicate IsSpace(ch: char)
  {
    ch == ' ' || ch == '\t' || ch == '\n' || ch == '\r' || ch == '\U{000B}' || ch == '\U{000C}'
  }

  function StripSpace(s: string): (r: string)
    ensures |r| <= |s|
  {
    if s != [] && IsSpace(s[0]) then StripSpace(s[1..])
    else if s != [] && IsSpace(s[|s| - 1]) then StripSpace(s[..|s| - 1])
    else s
  }

  /** Python 2's `int(text, 16)`: surrounding white space is skipped, a sign
      and a `0x` prefix are allowed before the digits; anything else raises
      ValueError, here None. */
  function PythonHexInt(text: string): (r: Option<int>)
  {
    var t := StripSpace(text);
    var negative := |t| > 0 && t[0] == '-';
    var unsigned := if |t| > 0 && (t[0] == '-' || t[0] == '+') then t[1..] else t;
    var digits := if |unsigned| >= 2 && unsigned[0] == '0' && (unsigned[1] == 'x' || unsigned[1] == 'X')
                  then unsigned[2..] else unsigned;
    if digits == [] || !AllHex(digits) then None
    else if negative then Some(-(HexValue(digits) as int))
    else Some(HexValue(digits))
  }

  /** A colour field read as nothing but hexadecimal digits, the format of
      section 4.2 of SVG 1.1. */
  function StrictHexInt(text: string): (r: Option<int>)
    ensures r.Some? <==> text != [] && AllHex(text)
    ensures r.Some? ==> 0 <= r.value < Pow16(|text|)
  {
    if text == [] || !AllHex(text) then None
    else
      HexValueBound(text);
      Some(HexValue(text))
  }

  /** `parse_color(c, default)`, with `field` the reading of one hex field and
      `named` the named-colour table. */
  function ParseColorWith(c: Option<string>, default: Paint, named: map<string, (int, int, int)>,
                          field: string -> Option<int>): Paint
  {
    if c.None? || c.value == "" then default
    else if c.value == "none" then NoPaint
    else
      var s := if c.value[0] == '#' then c.value[1..] else c.value;
      if "url(#" <= s then PaintRef(Inner(s, 5))
      else if s in named then Rgba(named[s].0, named[s].1, named[s].2, 255)
      else if |s| == 6 then
        var r, g, b := field(s[0..2]), field(s[2..4]), field(s[4..6]);
        if r.Some? && g.Some? && b.Some? then Rgba(r.value, g.value, b.value, 255) else NoPaint
      else if |s| == 3 then
        var r, g, b := field(s[0..1]), field(s[1..2]), field(s[2..3]);
        if r.Some? && g.Some? && b.Some? then Rgba(r.value * 17, g.value * 17, b.value * 17, 255) else NoPaint
      else NoPaint
  }

  /** `parse_color` as written: each field is read with Python's `int(text, 16)`. */
  function ParseColorAsWritten(c: Option<string>, default: Paint, named: map<string, (int, int, int)>): Paint
  {
    ParseColorWith(c, default, named, PythonHexInt)
  }

  /** `parse_color` with each field read as hexadecimal digits only. */
  function ParseColor(c: Option<string>, default: Paint, named: map<string, (int, int, int)>): Paint
  {
    ParseColorWith(c, default, named, StrictHexInt)
  }

  /** A sign inside a six-digit colour is read as a negative channel by
      `int(text, 16)`: `#-f0000` gives the channel -15. */
  lemma SignedFieldAsWritten(named: map<string, (int, int, int)>)
    requires "-f0000" !in named
    ensures ParseColorAsWritten(Some("#-f0000"), NoPaint, named) == Rgba(-15, 0, 0, 255)
  {
    assert StripSpace("-f") == "-f";
    assert StripSpace("00") == "00";
    assert HexValue("f") == 15;
    assert HexValue("00") == 0 by { assert HexValue("0") == 0; }
    assert PythonHexInt("-f") == Some(-15);
    assert PythonHexInt("00") == Some(0);
    assert "-f0000"[0..2] == "-f" && "-f0000"[2..4] == "00" && "-f0000"[4..6] == "00";
  }

  /** The same text is no colour once the fields must be hex digits. */
  lemma SignedFieldRejected(named: map<string, (int, int, int)>)
    requires "-f0000" !in named
    ensures ParseColor(Some("#-f0000"), NoPaint, named) == NoPaint
  {
    assert !IsHexDigit("-f0000"[0..2][0]);
  }

  /** Hex digits alone are read alike by both readers: there is no space
      to skip, no sign and no `0x` prefix. */
  lemma StrictFieldReadAlike(text: string)
    requires StrictHexInt(text).Some?
    ensures PythonHexInt(text) == StrictHexInt(text)
  {
    assert !IsSpace(text[0]) && !IsSpace(text[|text| - 1]);
    assert StripSpace(text) == text;
    assert text[0] != '-' && text[0] != '+';
    assert |text| >= 2 ==> text[1] != 'x' && text[1] != 'X';
  }

  /** Wherever the corrected `parse_color` gives a paint, the source's
      `parse_color` gives the same one; the two differ only on text the
      corrected reader rejects. So each case lemma below holds of the
      source too, for every colour it does not reject. */
  lemma AsWrittenAgrees(c: Option<string>, default: Paint, named: map<string, (int, int, int)>)
    ensures ParseColor(c, default, named) != NoPaint ==>
              ParseColorAsWritten(c, default, named) == ParseColor(c, default, named)
  {
    if c.Some? && c.value != "" && c.value != "none" {
      var s := if c.value[0] == '#' then c.value[1..] else c.value;
      if !("url(#" <= s) && s !in named {
        if |s| == 6 {
          if StrictHexInt(s[0..2]).Some? && StrictHexInt(s[2..4]).Some? && StrictHexInt(s[4..6]).Some? {
            StrictFieldReadAlike(s[0..2]);
            StrictFieldReadAlike(s[2..4]);
            StrictFieldReadAlike(s[4..6]);
          }
        } else if |s| == 3 {
          if StrictHexInt(s[0..1]).Some? && StrictHexInt(s[1..2]).Some? && StrictHexInt(s[2..3]).Some? {
            StrictFieldReadAlike(s[0..1]);
            StrictFieldReadAlike(s[1..2]);
            StrictFieldReadAlike(s[2..3]);
          }
        }
      }
    }
  }

  /** Absent or empty text gives the default, and `'none'` gives None. */
  lemma ColorDefaults(default: Paint, named: map<string, (int, int, int)>)
    ensures ParseColor(None, default, named) == default
    ensures ParseColor(Some(""), default, named) == default
    ensures ParseColor(Some("none"), default, named) == NoPaint
  {
  }

  /** A leading '#' is dropped: `#x` reads as `x` does. */
  lemma HashDropped(s: string, default: Paint, named: map<string, (int, int, int)>)
    requires s != "" && s != "none" && s[0] != '#'
    ensures ParseColor(Some("#" + s), default, named) == ParseColor(Some(s), default, named)
  {
    assert ("#" + s)[1..] == s;
  }

  /** `url(#id)` names the gradient `id`. */
  lemma UrlReference(id: string, default: Paint, named: map<string, (int, int, int)>)
    ensures ParseColor(Some("url(#" + id + ")"), default, named) == PaintRef(id)
  {
    var s := "url(#" + id + ")";
    assert "url(#" <= s;
    assert s[5..|s| - 1] == id;
  }

  /** A colour name is looked up in the table, fully opaque. */
  lemma NamedColor(s: string, default: Paint, named: map<string, (int, int, int)>)
    requires s in named && s != "" && s != "none" && s[0] != '#' && !("url(#" <= s)
    ensures ParseColor(Some(s), default, named) == Rgba(named[s].0, named[s].1, named[s].2, 255)
  {
  }

  /** Six hex digits are three two-digit channels, each in 0..255. */
  lemma SixDigits(s: string, default: Paint, named: map<string, (int, int, int)>)
    requires |s| == 6 && AllHex(s) && s !in named
    ensures ParseColor(Some(s), default, named)
         == Rgba(HexValue(s[0..2]), HexValue(s[2..4]), HexValue(s[4..6]), 255)
    ensures var p := ParseColor(Some(s), default, named);
            0 <= p.r < 256 && 0 <= p.g < 256 && 0 <= p.b < 256
  {
    assert s != "none" && s[0] != '#' && !("url(#" <= s) by { assert IsHexDigit(s[0]); }
    assert AllHex(s[0..2]) && AllHex(s[2..4]) && AllHex(s[4..6]);
    HexValueBound(s[0..2]);
    HexValueBound(s[2..4]);
    HexValueBound(s[4..6]);
    assert Pow16(2) == 256;
  }

  /** Three hex digits are each repeated: the channel is the digit times 17. */
  lemma ThreeDigits(s: string, default: Paint, named: map<string, (int, int, int)>)
    requires |s| == 3 && AllHex(s) && s !in named
    ensures ParseColor(Some(s), default, named)
         == Rgba(HexDigitValue(s[0]) * 17, HexDigitValue(s[1]) * 17, HexDigitValue(s[2]) * 17, 255)
  {
    assert s != "none" && s[0] != '#' by { assert IsHexDigit(s[0]); }
    assert HexValue(s[0..1]) == HexDigitValue(s[0]) by { assert s[0..1][..0] == []; }
    assert HexValue(s[1..2]) == HexDigitValue(s[1]) by { assert s[1..2][..0] == []; }
    assert HexValue(s[2..3]) == HexDigitValue(s[2]) by { assert s[2..3][..0] == []; }
  }

  /** Text that is neither absent, 'none', a reference nor a colour name
      is None unless it is three or six hex digits. */
  lemma OtherTextIsNone(s: string, default: Paint, named: map<string, (int, int, int)>)
    requires s != "" && s != "none" && s[0] != '#' && !("url(#" <= s) && s !in named
    requires !((|s| == 3 || |s| == 6) && AllHex(s))
    ensures ParseColor(Some(s), default, named) == NoPaint
  {
    if |s| == 6 {
      var i :| 0 <= i < 6 && !IsHexDigit(s[i]);
      if i < 2 { assert s[0..2][i] == s[i]; }
      else if i < 4 { assert s[2..4][i - 2] == s[i]; }
      else { assert s[4..6][i - 4] == s[i]; }
    } else if |s| == 3 {
      var i :| 0 <= i < 3 && !IsHexDigit(s[i]);
      assert s[i..i + 1][0] == s[i];
    }
  }

  /** With a table of byte channels, every colour `parse_color` yields
      has its channels in 0..255. */
  lemma ColorChannelsInRange(c: Option<string>, named: map<string, (int, int, int)>)
    requires forall k :: k in named ==> 0 <= named[k].0 < 256 && 0 <= named[k].1 < 256 && 0 <= named[k].2 < 256
    ensures var p := ParseColor(c, NoPaint, named);
            p.Rgba? ==> 0 <= p.r < 256 && 0 <= p.g < 256 && 0 <= p.b < 256 && p.a == 255
  {
    if c.Some? && c.value != "" && c.value != "none" {
      var s := if c.value[0] == '#' then c.value[1..] else c.value;
      if !("url(#" <= s) && s !in named {
        assert Pow16(1) == 16 && Pow16(2) == 256;
      }
    }
  }

  // ---------------------------------------------------------------------
  // parse_float

  predicate IsDigit(ch: char)
  {
    '0' <= ch <= '9'
  }

  /** `SVG_pre_render.parse_float(txt)`: text longer than two characters
      whose last two are not digits carries a unit such as `px`, which is cut
      off before `float()`; `toFloat` is Python's float() of text, None where
      it raises ValueError. */
  function ParseFloat(txt: string, toFloat: string -> Option<real>): (r: Result<real>)
    ensures r.Err? ==> r.error == ValueError
  {
    var number := if |txt| > 2 && !IsDigit(txt[|txt| - 1]) && !IsDigit(txt[|txt| - 2])
                  then txt[..|txt| - 2] else txt;
    var v := toFloat(number);
    if v.None? then Err(ValueError) else Ok(v.value)
  }

  /** A two-letter unit after a non-empty number is ignored. */
  lemma UnitIgnored(number: string, unit: string, toFloat: string -> Option<real>)
    requires number != [] && |unit| == 2 && !IsDigit(unit[0]) && !IsDigit(unit[1])
    ensures ParseFloat(number + unit, toFloat)
         == if toFloat(number).Some? then Ok(toFloat(number).value) else Err(ValueError)
  {
    var t := number + unit;
    assert t[..|t| - 2] == number;
  }

  /** Text ending in a digit, or of at most two characters, goes to
      `float()` whole. */
  lemma NoUnitKept(txt: string, toFloat: string -> Option<real>)
    requires |txt| <= 2 || IsDigit(txt[|txt| - 1]) || IsDigit(txt[|txt| - 2])
    ensures ParseFloat(txt, toFloat) == if toFloat(txt).Some? then Ok(toFloat(txt).value) else Err(ValueError)
  {
  }
}
