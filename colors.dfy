/**
 * The colour rule shared by both variants of the converter: a colour is a
 * string; its alpha channel is dropped by length alone, and only the result
 * is checked against the pattern `#` + three hex digits + optionally three more.
 */
module Colors {

  /**
   * `stripAlphaChannel`: a 5-character string (`#RGBA`) loses its last
   * character, a 9-character string (`#RRGGBBAA`) its last two; any other
   * string is returned as it is. The content is never looked at.
   */
  function StripAlphaChannel(color: string): (r: string)
    ensures r <= color
    ensures |color| == 5 ==> |r| == 4
    ensures |color| == 9 ==> |r| == 7
    ensures |color| != 5 && |color| != 9 ==> r == color
    ensures |r| != 5 && |r| != 9
  {
    if |color| == 5 then color[..4]
    else if |color| == 9 then color[..7]
    else color
  }

  /** Stripping twice is stripping once. */
  lemma StripIdempotent(color: string)
    ensures StripAlphaChannel(StripAlphaChannel(color)) == StripAlphaChannel(color)
  {
  }

  /** One character of the class `[A-Fa-f0-9]`. */
  predicate IsHexDigit(c: char) {
    ('0' <= c <= '9') || ('A' <= c <= 'F') || ('a' <= c <= 'f')
  }

  /** The group `[A-Fa-f0-9]{3}`. */
  predicate IsHexTriple(t: string) {
    |t| == 3 && IsHexDigit(t[0]) && IsHexDigit(t[1]) && IsHexDigit(t[2])
  }

  /**
   * The pattern `^#[A-Fa-f0-9]{3}(?:[A-Fa-f0-9]{3})?$`, written the way the
   * pattern is built: a `#`, one group of three, then either the end or a
   * second group of three and the end.
   */
  predicate IsValidColor(s: string) {
    |s| >= 4 && s[0] == '#' && IsHexTriple(s[1..4]) &&
    (|s| == 4 || (|s| == 7 && IsHexTriple(s[4..7])))
  }

  /**
   * The pattern, read character by character: exactly 4 or 7 characters, a
   * leading `#`, and a hex digit everywhere else.
   */
  lemma ValidColorShape(s: string)
    ensures IsValidColor(s) <==>
      (|s| == 4 || |s| == 7) && s[0] == '#' && forall i :: 1 <= i < |s| ==> IsHexDigit(s[i])
  {
    if (|s| == 4 || |s| == 7) && s[0] == '#' && forall i :: 1 <= i < |s| ==> IsHexDigit(s[i]) {
      assert s[1..4][0] == s[1] && s[1..4][1] == s[2] && s[1..4][2] == s[3];
      if |s| == 7 {
        assert s[4..7][0] == s[4] && s[4..7][1] == s[5] && s[4..7][2] == s[6];
      }
    }
    if IsValidColor(s) {
      forall i | 1 <= i < |s| ensures IsHexDigit(s[i]) {
        if i < 4 {
          assert s[i] == s[1..4][i - 1];
        } else {
          assert s[i] == s[4..7][i - 4];
        }
      }
    }
  }

  /** The outcome of `colorString()` on a string: the stripped colour, or the stripped string it refused. */
  datatype ColorCheck = Accepted(color: string) | Rejected(stripped: string)

  /**
   * `colorString()` applied to a string value: strip first, then test the
   * pattern on what is left, so the alpha characters are never tested.
   */
  function CheckColor(raw: string): (r: ColorCheck)
    ensures r.Accepted? <==> IsValidColor(StripAlphaChannel(raw))
    ensures r.Accepted? ==> r.color <= raw && IsValidColor(r.color) && (|r.color| == 4 || |r.color| == 7)
    ensures r.Accepted? ==> r.color == StripAlphaChannel(raw)
    ensures r.Rejected? ==> r.stripped == StripAlphaChannel(raw)
  {
    var stripped := StripAlphaChannel(raw);
    if IsValidColor(stripped) then Accepted(stripped) else Rejected(stripped)
  }

  /** The refinement's message, which quotes the string after stripping. */
  function InvalidColorMessage(stripped: string): (m: string)
    ensures |m| == |stripped| + 23
    ensures m[..1] == "\"" && m[1..|stripped| + 1] == stripped
    ensures m[|stripped| + 1..] == "\" is not a valid color"
  {
    "\"" + stripped + "\" is not a valid color"
  }

  /**
   * The alpha characters are never checked: adding any one character to a
   * 4-character string, or any two to a 7-character string, leaves the
   * verdict and the resulting colour exactly as they were.
   */
  lemma AlphaNeverChecked(raw: string, a: char, b: char)
    ensures |raw| == 4 ==> CheckColor(raw + [a]) == CheckColor(raw)
    ensures |raw| == 7 ==> CheckColor(raw + [a, b]) == CheckColor(raw)
  {
    if |raw| == 4 {
      assert (raw + [a])[..4] == raw;
    }
    if |raw| == 7 {
      assert (raw + [a, b])[..7] == raw;
    }
  }

  /** `#1234` and `#11223344` lose their alpha; `#123z` is accepted as `#123`; `#12` is refused as it is. */
  lemma CheckColorExamples()
    ensures CheckColor("#1234") == Accepted("#123")
    ensures CheckColor("#11223344") == Accepted("#112233")
    ensures CheckColor("#123z") == Accepted("#123")
    ensures CheckColor("#16161e") == Accepted("#16161e")
    ensures CheckColor("#12") == Rejected("#12")
  {
    assert "#1234"[..4] == "#123";
    assert "#11223344"[..7] == "#112233";
    assert "#123z"[..4] == "#123";
    assert IsHexTriple("#123"[1..4]);
    assert IsHexTriple("#112233"[1..4]) && IsHexTriple("#112233"[4..7]);
    assert IsHexTriple("#16161e"[1..4]) && IsHexTriple("#16161e"[4..7]);
  }

  /**
   * `notacolor` has nine characters, so it is cut to `notacol` before the
   * pattern is tested, and the message quotes `notacol`, not the original.
   */
  lemma NotAColorQuotesStripped()
    ensures CheckColor("notacolor") == Rejected("notacol")
    ensures InvalidColorMessage(CheckColor("notacolor").stripped) == "\"notacol\" is not a valid color"
  {
    assert "notacolor"[..7] == "notacol";
  }
}
