/** The e-mail texts in English and Danish, looked up by key with fallback
    to the key, and .NET composite formatting of the looked-up text. */
module Localization {
  import opened Wrappers

  const DocumentUploadedEn: string :=
    "{0}" + " uploaded a new document \"" + "{1}" + "\" to the case \"" + "{2}" + "\""
  const DocumentUploadedDa: string :=
    "{0}" + " uploadede et nyt dokument \"" + "{1}" + "\" til sagen \"" + "{2}" + "\""

  /** The table, built once and never changed: language -> key -> text. */
  const Localizations: map<string, map<string, string>> := map[
    "en" := map[
      "DocumentUploadedToCase" := DocumentUploadedEn,
      "OpenDocument" := "Open document",
      "YouReceiveThisEmailBecauseYouHaveAUserInIMSCase" := "You receive this email because you have a user in <b>IMS Case</b>"],
    "da" := map[
      "DocumentUploadedToCase" := DocumentUploadedDa,
      "OpenDocument" := "Åbn dokument",
      "YouReceiveThisEmailBecauseYouHaveAUserInIMSCase" := "Du modtager denne email fordi du har en bruger i <b>IMS Case</b>"]]

  /** The stored text when both the language and the key exist, otherwise
      the key itself. */
  function GetMessage(key: string, language: string): (r: string)
    ensures language in Localizations && key in Localizations[language] ==> r == Localizations[language][key]
    ensures !(language in Localizations && key in Localizations[language]) ==> r == key
  {
    if language in Localizations && key in Localizations[language] then Localizations[language][key] else key
  }

  /** `FormatMessage`: with no arguments the looked-up text verbatim (braces
      and all), otherwise that text formatted with the arguments. */
  function FormatMessage(key: string, language: string, args: seq<string>): (r: Result<string>)
    ensures args == [] ==> r == Ok(GetMessage(key, language))
    ensures args != [] ==> r == Format(GetMessage(key, language), args)
  {
    if |args| > 0 then Format(GetMessage(key, language), args) else Ok(GetMessage(key, language))
  }

  predicate IsDigit(c: char)
  {
    '0' <= c <= '9'
  }

  /** The number of leading decimal digits of `s`. */
  function DigitsLength(s: string): (n: nat)
    ensures n <= |s|
    ensures forall i :: 0 <= i < n ==> IsDigit(s[i])
    ensures n < |s| ==> !IsDigit(s[n])
  {
    if s != [] && IsDigit(s[0]) then 1 + DigitsLength(s[1..]) else 0
  }

  /** The value of a string of decimal digits. */
  function DigitsValue(s: string): nat
    requires forall i :: 0 <= i < |s| ==> IsDigit(s[i])
  {
    if s == [] then 0
    else
      assert IsDigit(s[|s| - 1]);
      DigitsValue(s[..|s| - 1]) * 10 + (s[|s| - 1] as int - '0' as int)
  }

  function Prepend(prefix: string, r: Result<string>): Result<string>
  {
    if r.Ok? then Ok(prefix + r.value) else r
  }

  /** .NET composite formatting, for format items of the form `{n}`: `{{`
      and `}}` stand for single braces, `{n}` for the n-th argument, and a
      lone brace, an item that is not `{digits}` or an index past the last
      argument is a `FormatException`. */
  function Format(format: string, args: seq<string>): (r: Result<string>)
    decreases |format|
  {
    if format == [] then Ok([])
    else if format[0] == '{' then
      if |format| >= 2 && format[1] == '{' then Prepend("{", Format(format[2..], args))
      else
        var n := DigitsLength(format[1..]);
        if n == 0 || 1 + n >= |format| || format[1 + n] != '}' then Err(FormatException)
        else
          var index := DigitsValue(format[1..1 + n]);
          if index >= |args| then Err(FormatException)
          else Prepend(args[index], Format(format[2 + n..], args))
    else if format[0] == '}' then
      if |format| >= 2 && format[1] == '}' then Prepend("}", Format(format[2..], args))
      else Err(FormatException)
    else Prepend([format[0]], Format(format[1..], args))
  }

  predicate BraceFree(s: string)
  {
    forall i :: 0 <= i < |s| ==> s[i] != '{' && s[i] != '}'
  }

  /** Text without braces passes through formatting unchanged, followed by
      the formatting of what comes after it. */
  lemma {:induction false} FormatPlainPrefix(plain: string, rest: string, args: seq<string>)
    requires BraceFree(plain)
    ensures Format(plain + rest, args) == Prepend(plain, Format(rest, args))
    decreases |plain|
  {
    if plain == [] {
      assert plain + rest == rest;
      if Format(rest, args).Ok? {
        assert plain + Format(rest, args).value == Format(rest, args).value;
      }
    } else {
      var f := plain + rest;
      assert f[0] == plain[0] && f[0] != '{' && f[0] != '}';
      assert Format(f, args) == Prepend([plain[0]], Format(f[1..], args));
      assert f[1..] == plain[1..] + rest;
      FormatPlainPrefix(plain[1..], rest, args);
      if Format(rest, args).Ok? {
        assert [plain[0]] + (plain[1..] + Format(rest, args).value) == plain + Format(rest, args).value;
      }
    }
  }

  /** A brace-free text formats to itself, whatever the arguments. */
  lemma FormatPlain(plain: string, args: seq<string>)
    requires BraceFree(plain)
    ensures Format(plain, args) == Ok(plain)
  {
    FormatPlainPrefix(plain, [], args);
    assert plain + [] == plain;
  }

  /** `{d}` for a single digit d naming an argument becomes that argument. */
  lemma FormatItemPrefix(digit: char, rest: string, args: seq<string>)
    requires IsDigit(digit) && digit as int - '0' as int < |args|
    ensures Format(['{', digit, '}'] + rest, args) == Prepend(args[digit as int - '0' as int], Format(rest, args))
  {
    var f := ['{', digit, '}'] + rest;
    assert f[1..][1..] == ['}'] + rest;
    assert DigitsLength(f[1..][1..]) == 0;
    assert DigitsLength(f[1..]) == 1;
    assert f[1..2] == [digit];
    assert DigitsValue(f[1..2]) == digit as int - '0' as int by {
      assert f[1..2][..0] == [];
    }
    assert f[3..] == rest;
  }

  /** A text made of `{0}`, `{1}`, `{2}` each followed by brace-free text
      formats to the three arguments in that order, with the text between
      them kept. */
  lemma FormatThreeItems(p0: string, p1: string, p2: string, args: seq<string>)
    requires |args| >= 3 && BraceFree(p0) && BraceFree(p1) && BraceFree(p2)
    ensures Format("{0}" + p0 + "{1}" + p1 + "{2}" + p2, args) == Ok(args[0] + p0 + args[1] + p1 + args[2] + p2)
  {
    var t2 := ['{', '2', '}'] + (p2 + []);
    var t1 := ['{', '1', '}'] + (p1 + t2);
    var t0 := ['{', '0', '}'] + (p0 + t1);
    FormatItemThenPlain('2', p2, [], args);
    FormatItemThenPlain('1', p1, t2, args);
    FormatItemThenPlain('0', p0, t1, args);
    ThreeItemsLayout(p0, p1, p2, args);
  }

  lemma ThreeItemsLayout(p0: string, p1: string, p2: string, args: seq<string>)
    requires |args| >= 3
    ensures "{0}" + p0 + "{1}" + p1 + "{2}" + p2
              == ['{', '0', '}'] + (p0 + (['{', '1', '}'] + (p1 + (['{', '2', '}'] + (p2 + [])))))
    ensures Format([], args) == Ok([])
    ensures args[0] + p0 + (args[1] + p1 + (args[2] + p2 + [])) == args[0] + p0 + args[1] + p1 + args[2] + p2
  {
    assert "{0}" == ['{', '0', '}'] && "{1}" == ['{', '1', '}'] && "{2}" == ['{', '2', '}'];
    Regroup("{0}", p0, "{1}", p1, "{2}", p2);
    Regroup(args[0], p0, args[1], p1, args[2], p2);
  }

  lemma Regroup(a: string, b: string, c: string, d: string, e: string, f: string)
    ensures a + b + c + d + e + f == a + (b + (c + (d + (e + (f + [])))))
    ensures a + b + (c + d + (e + f + [])) == a + b + c + d + e + f
  {
    assert f + [] == f;
  }

  /** `{d}` followed by brace-free text. */
  lemma FormatItemThenPlain(digit: char, plain: string, rest: string, args: seq<string>)
    requires IsDigit(digit) && digit as int - '0' as int < |args| && BraceFree(plain)
    ensures Format(['{', digit, '}'] + (plain + rest), args)
              == Prepend(args[digit as int - '0' as int] + plain, Format(rest, args))
  {
    var d := digit as int - '0' as int;
    FormatItemPrefix(digit, plain + rest, args);
    FormatPlainPrefix(plain, rest, args);
    PrependTwice(Format(['{', digit, '}'] + (plain + rest), args), Format(plain + rest, args), args[d], plain, Format(rest, args));
  }

  lemma PrependTwice(f: Result<string>, g: Result<string>, a: string, b: string, x: Result<string>)
    requires f == Prepend(a, g) && g == Prepend(b, x)
    ensures f == Prepend(a + b, x)
  {
    if x.Ok? {
      assert a + (b + x.value) == a + b + x.value;
    }
  }

  /** The English document-upload line names the modifier, the document and
      the case, in that order. */
  lemma DocumentUploadedEnglish(modifier: string, document: string, caseTitle: string)
    ensures FormatMessage("DocumentUploadedToCase", "en", [modifier, document, caseTitle]) ==
              Ok(modifier + " uploaded a new document \"" + document + "\" to the case \"" + caseTitle + "\"")
  {
    assert GetMessage("DocumentUploadedToCase", "en") == DocumentUploadedEn;
    FormatThreeItems(" uploaded a new document \"", "\" to the case \"", "\"", [modifier, document, caseTitle]);
  }

  /** The Danish document-upload line names the same three values in the
      same order. */
  lemma DocumentUploadedDanish(modifier: string, document: string, caseTitle: string)
    ensures FormatMessage("DocumentUploadedToCase", "da", [modifier, document, caseTitle]) ==
              Ok(modifier + " uploadede et nyt dokument \"" + document + "\" til sagen \"" + caseTitle + "\"")
  {
    assert GetMessage("DocumentUploadedToCase", "da") == DocumentUploadedDa;
    FormatThreeItems(" uploadede et nyt dokument \"", "\" til sagen \"", "\"", [modifier, document, caseTitle]);
  }

  /** English and Danish define the same keys. */
  lemma LanguagesAgree()
    ensures Localizations["en"].Keys == Localizations["da"].Keys
  {
  }

  /** An unknown language, or a key the language lacks, falls back to the
      key, and only then: every stored text differs from its key. */
  lemma FallbackOnlyForUnknown(key: string, language: string)
    ensures GetMessage(key, language) == key <==> !(language in Localizations && key in Localizations[language])
  {
  }
}
