/**
 * The two `java.lang.String` operations the report builder and the page-style
 * helper rely on: `trim` (used to reject blank template names) and
 * `String.format` (used to build CSS page rules), the latter restricted to the
 * `%s` conversion, the only one the helper's templates contain.
 */
module JavaStrings {
  import opened Wrappers

  /** A character `String.trim` removes from either end: any code unit up to and including the space. */
  predicate IsTrimmable(c: char) {
    c <= ' '
  }

  /** Every character of `s` is one `trim` removes. */
  predicate AllTrimmable(s: string) {
    forall i :: 0 <= i < |s| ==> IsTrimmable(s[i])
  }

  /** The first scan of `trim`: from `st`, the index of the first character that is not trimmable, or `|s|`. */
  function TrimStartIndex(s: string, st: nat): (r: nat)
    requires st <= |s|
    ensures st <= r <= |s|
    ensures forall i :: st <= i < r ==> IsTrimmable(s[i])
    ensures r == |s| || !IsTrimmable(s[r])
    decreases |s| - st
  {
    if st < |s| && IsTrimmable(s[st]) then TrimStartIndex(s, st + 1) else st
  }

  /** The second scan of `trim`: from `len` down to `st`, the index just past the last character that is not trimmable, or `st`. */
  function TrimEndIndex(s: string, st: nat, len: nat): (r: nat)
    requires st <= len <= |s|
    ensures st <= r <= len
    ensures forall i :: r <= i < len ==> IsTrimmable(s[i])
    ensures r == st || !IsTrimmable(s[r - 1])
    decreases len
  {
    if st < len && IsTrimmable(s[len - 1]) then TrimEndIndex(s, st, len - 1) else len
  }

  /**
   * `String.trim`: the slice of `s` between its trimmable prefix and its
   * trimmable suffix, which starts and ends with a character above the space
   * unless it is empty.
   */
  function Trim(s: string): (r: string)
    ensures var k := TrimStartIndex(s, 0);
      && k + |r| <= |s|
      && r == s[k..k + |r|]
      && (forall i :: 0 <= i < k ==> IsTrimmable(s[i]))
      && (forall i :: k + |r| <= i < |s| ==> IsTrimmable(s[i]))
    ensures r == [] || (!IsTrimmable(r[0]) && !IsTrimmable(r[|r| - 1]))
  {
    var st := TrimStartIndex(s, 0);
    s[st..TrimEndIndex(s, st, |s|)]
  }

  /** `s.trim().isEmpty()` holds exactly when every character of `s` is trimmable. */
  lemma TrimEmptyIffAllTrimmable(s: string)
    ensures Trim(s) == [] <==> AllTrimmable(s)
  {
    var st := TrimStartIndex(s, 0);
    if Trim(s) == [] {
      assert TrimEndIndex(s, st, |s|) == st;
    }
  }

  /**
   * `String.format(template, args)` for templates whose only conversion is
   * `%s`. `None` stands for the exception Java throws when a conversion has no
   * argument left, and for any conversion other than `%s`, which this model
   * does not cover. Surplus arguments are ignored, as in Java.
   */
  function Format(template: string, args: seq<string>): (r: Option<string>)
    ensures (forall i :: 0 <= i < |template| ==> template[i] != '%') ==> r == Some(template)
    decreases |template|
  {
    if |template| == 0 then
      Some("")
    else if template[0] != '%' then
      assert template == [template[0]] + template[1..];
      match Format(template[1..], args)
      case Some(tail) => Some([template[0]] + tail)
      case None => None
    else if |template| >= 2 && template[1] == 's' && |args| > 0 then
      match Format(template[2..], args[1..])
      case Some(tail) => Some(args[0] + tail)
      case None => None
    else
      None
  }

  /** Literal text without `%` is copied to the output unchanged, ahead of whatever the rest expands to. */
  lemma {:induction false} FormatLiteral(text: string, rest: string, args: seq<string>)
    requires '%' !in text
    ensures Format(text + rest, args).Some? <==> Format(rest, args).Some?
    ensures Format(rest, args).Some? ==> Format(text + rest, args).value == text + Format(rest, args).value
    decreases |text|
  {
    if text != [] {
      assert (text + rest)[0] == text[0];
      assert (text + rest)[1..] == text[1..] + rest;
      FormatLiteral(text[1..], rest, args);
      if Format(rest, args).Some? {
        assert [text[0]] + (text[1..] + Format(rest, args).value) == text + Format(rest, args).value;
      }
    } else {
      assert text + rest == rest;
    }
  }

  /** A `%s` conversion is replaced by the next argument, and the remaining arguments serve the rest. */
  lemma FormatConversion(rest: string, args: seq<string>)
    requires |args| > 0
    ensures Format("%s" + rest, args).Some? <==> Format(rest, args[1..]).Some?
    ensures Format(rest, args[1..]).Some? ==> Format("%s" + rest, args).value == args[0] + Format(rest, args[1..]).value
  {
    var t := "%s" + rest;
    assert t[0] == '%' && t[1] == 's' && t[2..] == rest;
  }

  /** A `%s` with no argument left makes `String.format` throw (`MissingFormatArgumentException`). */
  lemma FormatMissingArgument(rest: string)
    ensures Format("%s" + rest, []) == None
  {
    assert ("%s" + rest)[0] == '%' && ("%s" + rest)[1] == 's';
  }

  /** A `%` that does not start a `%s` conversion is outside the model and also gives `None`. */
  lemma FormatOtherConversion(rest: string, args: seq<string>)
    requires rest == [] || rest[0] != 's'
    ensures Format("%" + rest, args) == None
  {
    assert ("%" + rest)[0] == '%';
    assert |"%" + rest| >= 2 ==> ("%" + rest)[1] == rest[0];
  }

  /** The format string made of the literal pieces `texts` with one `%s` conversion between each two. */
  function Template(texts: seq<string>): string
    requires |texts| > 0
    decreases |texts|
  {
    if |texts| == 1 then texts[0] else texts[0] + ("%s" + Template(texts[1..]))
  }

  /** The literal pieces `texts` with the arguments interleaved, one between each two. */
  function Interleave(texts: seq<string>, args: seq<string>): string
    requires |texts| == |args| + 1
    decreases |args|
  {
    if |args| == 0 then texts[0] else texts[0] + (args[0] + Interleave(texts[1..], args[1..]))
  }

  /**
   * Formatting a template of `%`-free pieces with exactly one argument per
   * conversion never throws and yields the pieces and the arguments interleaved.
   */
  lemma {:induction false} FormatTemplate(texts: seq<string>, args: seq<string>)
    requires |texts| == |args| + 1
    requires forall i :: 0 <= i < |texts| ==> '%' !in texts[i]
    ensures Format(Template(texts), args) == Some(Interleave(texts, args))
    decreases |args|
  {
    if |args| == 0 {
      FormatLiteral(texts[0], "", args);
      assert texts[0] + "" == texts[0];
    } else {
      var rest := Template(texts[1..]);
      FormatTemplate(texts[1..], args[1..]);
      FormatConversion(rest, args);
      FormatLiteral(texts[0], "%s" + rest, args);
    }
  }
}
