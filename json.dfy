/** Newtonsoft `JObject`/`JToken` as values: an object is an ordered sequence
    of named properties. Only the lookups and conversions the modelled code
    performs are given. */
module Json {
  import opened Wrappers
  import opened Strings

  datatype JValue =
    | JNull
    | JBool(b: bool)
    | JInt(i: int)
    | JString(s: string)
    | JObject(properties: seq<Property>)
    | JArray(elements: seq<JValue>)

  datatype Property = Property(name: string, value: JValue)

  /** `jObject[name]`: the value of the property with exactly that name,
      or C# null when there is none. */
  function Get(props: seq<Property>, name: string): Option<JValue>
  {
    if props == [] then None
    else if props[0].name == name then Some(props[0].value)
    else Get(props[1..], name)
  }

  /** The lookup finds the first property with exactly the name. */
  lemma {:induction false} GetFirst(props: seq<Property>, k: nat, name: string)
    requires k < |props| && props[k].name == name
    requires forall j :: 0 <= j < k ==> props[j].name != name
    ensures Get(props, name) == Some(props[k].value)
  {
    if k > 0 {
      GetFirst(props[1..], k - 1, name);
    }
  }

  /** The lookup gives null exactly when no property has the name. */
  lemma {:induction false} GetMissing(props: seq<Property>, name: string)
    ensures Get(props, name).None? <==> forall j :: 0 <= j < |props| ==> props[j].name != name
  {
    if props != [] && props[0].name != name {
      GetMissing(props[1..], name);
      assert forall j :: 1 <= j < |props| ==> props[j].name == props[1..][j - 1].name;
    }
  }

  /** Index of the first property whose name equals `name` ignoring case. */
  function FirstIgnoreCase(props: seq<Property>, name: string): (r: Option<nat>)
    ensures r.Some? ==> r.value < |props| && EqualsIgnoreCase(props[r.value].name, name)
    ensures r.Some? ==> forall j :: 0 <= j < r.value ==> !EqualsIgnoreCase(props[j].name, name)
    ensures r.None? ==> forall j :: 0 <= j < |props| ==> !EqualsIgnoreCase(props[j].name, name)
  {
    if props == [] then None
    else if EqualsIgnoreCase(props[0].name, name) then Some(0)
    else match FirstIgnoreCase(props[1..], name)
      case None => None
      case Some(k) => Some(k + 1)
  }

  /** Index of the last property whose name equals `name` ignoring case. */
  function LastIgnoreCase(props: seq<Property>, name: string): (r: Option<nat>)
    ensures r.Some? ==> r.value < |props| && EqualsIgnoreCase(props[r.value].name, name)
    ensures r.Some? ==> forall j :: r.value < j < |props| ==> !EqualsIgnoreCase(props[j].name, name)
    ensures r.None? ==> forall j :: 0 <= j < |props| ==> !EqualsIgnoreCase(props[j].name, name)
  {
    if props == [] then None
    else if EqualsIgnoreCase(props[|props| - 1].name, name) then Some(|props| - 1)
    else LastIgnoreCase(props[..|props| - 1], name)
  }

  /** `token.ToString()`: a string token gives its text, a JSON null gives
      the empty string, a boolean "True"/"False", an integer its digits, and
      an object or an array its indented JSON text. */
  function Text(v: JValue): string
  {
    match v
    case JNull => ""
    case JBool(b) => if b then "True" else "False"
    case JInt(i) => IntToText(i)
    case JString(s) => s
    case JObject(_) => Render(v, 0)
    case JArray(_) => Render(v, 0)
  }

  /** `Environment.NewLine` on Linux. */
  const NewLine: string := "\n"

  /** The indentation of nesting level `level`: two spaces per level. */
  function Indent(level: nat): (r: string)
    ensures |r| == 2 * level
    ensures forall i :: 0 <= i < |r| ==> r[i] == ' '
  {
    if level == 0 then "" else "  " + Indent(level - 1)
  }

  /** Four lower-case hexadecimal digits of a code unit below 0x10000. */
  function Hex4(c: char): string
  {
    var n := c as int % 0x1_0000;
    [HexDigit(n / 0x1000), HexDigit(n / 0x100 % 16), HexDigit(n / 16 % 16), HexDigit(n % 16)]
  }

  function HexDigit(d: int): char
    requires 0 <= d < 16
  {
    if d < 10 then ('0' as int + d) as char else ('a' as int + d - 10) as char
  }

  /** Whether Newtonsoft's default escaping rewrites the character in a
      double-quoted string: control characters, the quote, the backslash,
      and U+0085, U+2028 and U+2029. */
  predicate NeedsEscape(c: char)
  {
    c as int < 0x20 || c == '"' || c == '\\' || c as int == 0x85 || c as int == 0x2028 || c as int == 0x2029
  }

  function EscapeChar(c: char): string
  {
    if c == '"' then "\\\""
    else if c == '\\' then "\\\\"
    else if c == '\n' then "\\n"
    else if c == '\r' then "\\r"
    else if c == '\t' then "\\t"
    else if c as int == 8 then "\\b"
    else if c as int == 12 then "\\f"
    else if NeedsEscape(c) then "\\u" + Hex4(c)
    else [c]
  }

  /** The text of a JSON string literal between its quotes. */
  function Escape(s: string): string
  {
    if s == [] then [] else EscapeChar(s[0]) + Escape(s[1..])
  }

  /** Text that needs no escaping is written as it is. */
  lemma {:induction false} EscapePlain(s: string)
    requires forall i :: 0 <= i < |s| ==> !NeedsEscape(s[i])
    ensures Escape(s) == s
  {
    if s != [] {
      EscapePlain(s[1..]);
    }
  }

  function Quoted(s: string): string
  {
    "\"" + Escape(s) + "\""
  }

  /** `JToken.ToString(Formatting.Indented)` of a token at nesting level
      `level`: one property or element per line, two spaces of indentation
      per level, `": "` after a name, and `{}` or `[]` when empty. */
  function Render(v: JValue, level: nat): string
    decreases v
  {
    match v
    case JNull => "null"
    case JBool(b) => if b then "true" else "false"
    case JInt(i) => IntToText(i)
    case JString(s) => Quoted(s)
    case JObject(ps) =>
      if ps == [] then "{}" else "{" + NewLine + RenderProperties(ps, level + 1) + NewLine + Indent(level) + "}"
    case JArray(vs) =>
      if vs == [] then "[]" else "[" + NewLine + RenderElements(vs, level + 1) + NewLine + Indent(level) + "]"
  }

  function RenderProperties(ps: seq<Property>, level: nat): string
    decreases ps
  {
    if ps == [] then ""
    else
      var head := PropertyLine(ps[0], level);
      if |ps| == 1 then head else head + "," + NewLine + RenderProperties(ps[1..], level)
  }

  /** One property: indentation, the quoted name, `": "` and the value. */
  function PropertyLine(p: Property, level: nat): string
    decreases p
  {
    Indent(level) + Quoted(p.name) + ": " + Render(p.value, level)
  }

  function RenderElements(vs: seq<JValue>, level: nat): string
    decreases vs
  {
    if vs == [] then ""
    else
      var head := Indent(level) + Render(vs[0], level);
      if |vs| == 1 then head else head + "," + NewLine + RenderElements(vs[1..], level)
  }

  /** An object of two properties is written one property per line, each
      indented two spaces: `{`, the line `"n1": <v1>` and a comma, the line
      `"n2": <v2>`, then `}`; each value is rendered one level deeper than
      the braces. */
  lemma TextOfObject(n1: string, v1: JValue, n2: string, v2: JValue)
    requires forall i :: 0 <= i < |n1| ==> !NeedsEscape(n1[i])
    requires forall i :: 0 <= i < |n2| ==> !NeedsEscape(n2[i])
    ensures Text(JObject([Property(n1, v1), Property(n2, v2)]))
            == "{" + NewLine
               + (("  " + ("\"" + n1 + "\"") + ": " + Render(v1, 1)) + "," + NewLine
                  + ("  " + ("\"" + n2 + "\"") + ": " + Render(v2, 1)))
               + NewLine + "}"
  {
    var p, q := Property(n1, v1), Property(n2, v2);
    PropertyText(n1, v1);
    PropertyText(n2, v2);
    TwoProperties(p, q, 1);
    TopLevelObjectText([p, q]);
  }

  /** Two properties are written on two lines joined by a comma. */
  lemma TwoProperties(p: Property, q: Property, level: nat)
    ensures RenderProperties([p, q], level) == PropertyLine(p, level) + "," + NewLine + PropertyLine(q, level)
  {
    assert [p, q][1..] == [q];
  }

  /** A non-empty object at the top level: its properties between braces
      on lines of their own. */
  lemma TopLevelObjectText(ps: seq<Property>)
    requires ps != []
    ensures Text(JObject(ps)) == "{" + NewLine + RenderProperties(ps, 1) + NewLine + "}"
  {
    var open := "{" + NewLine + RenderProperties(ps, 1) + NewLine;
    assert Indent(0) == "";
    assert open + "" == open;
  }

  /** One property at nesting level 1 whose name needs no escaping. */
  lemma PropertyText(name: string, v: JValue)
    requires forall i :: 0 <= i < |name| ==> !NeedsEscape(name[i])
    ensures PropertyLine(Property(name, v), 1) == "  " + ("\"" + name + "\"") + ": " + Render(v, 1)
  {
    EscapePlain(name);
    assert Indent(1) == "  ";
  }

  /** An object nested one level deep. */
  lemma NestedObjectText()
    ensures Render(JObject([Property("c", JString("x"))]), 1)
            == "{" + NewLine + ("    " + ("\"" + "c" + "\"") + ": " + ("\"" + "x" + "\"")) + NewLine + "  " + "}"
  {
    var p := Property("c", JString("x"));
    EscapePlain("c");
    EscapePlain("x");
    assert Indent(1) == "  " && Indent(2) == "    ";
    assert RenderProperties([p], 2) == PropertyLine(p, 2);
  }

  /** An array is written one indented element per line; empty containers
      stay on one line. */
  lemma TextOfArray()
    ensures Text(JArray([JInt(1), JObject([]), JArray([])])) == "[\n  1,\n  {},\n  []\n]"
  {
  }

  /** A quote and a line break inside a string value are escaped. */
  lemma TextEscapes()
    ensures Text(JObject([Property("q", JString("a\"\n"))]))
            == "{" + NewLine + ("  " + ("\"" + "q" + "\"") + ": " + ("\"" + "a\\\"\\n" + "\"")) + NewLine + "}"
  {
    var v := JString("a\"\n");
    PropertyText("q", v);
    assert Render(v, 1) == "\"" + Escape("a\"\n") + "\"";
    assert Escape("a\"\n") == "a\\\"\\n";
    TopLevelObjectText([Property("q", v)]);
  }

  /** `Boolean.Parse`: "True" or "False" ignoring case, tried first on the
      text as it is and then with white space and NUL trimmed from both
      ends; anything else is a `FormatException`. */
  function ParseBool(s: string): (r: Result<bool>)
    ensures r == Ok(true) <==> EqualsIgnoreCase(Trim(s), "True")
    ensures r == Ok(false) <==> EqualsIgnoreCase(Trim(s), "False")
    ensures r.Err? ==> r == Err(FormatException)
  {
    KeywordsDiffer(Trim(s));
    if EqualsIgnoreCase(s, "True") then TrimmedKeyword(s, "True"); Ok(true)
    else if EqualsIgnoreCase(s, "False") then TrimmedKeyword(s, "False"); Ok(false)
    else
      var t := Trim(s);
      if EqualsIgnoreCase(t, "True") then Ok(true)
      else if EqualsIgnoreCase(t, "False") then Ok(false)
      else Err(FormatException)
  }

  /** No text equals both "True" and "False" ignoring case. */
  lemma KeywordsDiffer(s: string)
    ensures !(EqualsIgnoreCase(s, "True") && EqualsIgnoreCase(s, "False"))
  {
    if EqualsIgnoreCase(s, "True") {
      assert |Lower(s)| == 4;
    }
  }

  /** A text equal to "True" or "False" ignoring case has nothing to trim. */
  lemma TrimmedKeyword(s: string, keyword: string)
    requires keyword == "True" || keyword == "False"
    requires EqualsIgnoreCase(s, keyword)
    ensures Trim(s) == s
  {
    KeywordEnds(s, keyword);
    TrimPadded("", s, "");
    assert "" + s + "" == s;
  }

  /** A text equal to "True" or "False" ignoring case starts and ends with a
      letter. */
  lemma KeywordEnds(s: string, keyword: string)
    requires keyword == "True" || keyword == "False"
    requires EqualsIgnoreCase(s, keyword)
    ensures s != [] && !IsWhiteSpaceOrNull(s[0]) && !IsWhiteSpaceOrNull(s[|s| - 1])
  {
    assert |Lower(s)| == |Lower(keyword)|;
    assert Lower(s)[0] == Lower(keyword)[0];
    assert Lower(s)[|s| - 1] == Lower(keyword)[|s| - 1];
  }

  /** "True" or "False" in any letter case, padded with white space or NUL
      on either side, parses. */
  lemma {:induction false} ParsePadded(p: string, t: string, q: string, b: bool)
    requires AllWhiteSpaceOrNull(p) && AllWhiteSpaceOrNull(q)
    requires EqualsIgnoreCase(t, if b then "True" else "False")
    ensures ParseBool(p + t + q) == Ok(b)
  {
    KeywordEnds(t, if b then "True" else "False");
    TrimPadded(p, t, q);
  }

  /** `ToObject<bool>()` of a string holding "True" or "False" in any
      letter case, padded with white space or NUL on either side. */
  lemma ToBoolPadded(s: string, p: string, t: string, q: string, b: bool)
    requires s == p + t + q
    requires AllWhiteSpaceOrNull(p) && AllWhiteSpaceOrNull(q)
    requires EqualsIgnoreCase(t, if b then "True" else "False")
    ensures ToBool(JString(s)) == Ok(b)
  {
    ParsePadded(p, t, q, b);
  }

  /** `ToObject<bool>()` of "true" after a leading space is true. */
  lemma ToBoolLeadingSpace()
    ensures ToBool(JString(" true")) == Ok(true)
  {
    assert Lower("true") == Lower("True");
    ToBoolPadded(" true", " ", "true", "", true);
  }

  /** `ToObject<bool>()` of "false" before a line break is false. */
  lemma ToBoolTrailingLineBreak()
    ensures ToBool(JString("false\n")) == Ok(false)
  {
    assert Lower("false") == Lower("False");
    ToBoolPadded("false\n", "", "false", "\n", false);
  }

  /** `ToObject<bool>()` of "True" before a NUL character is true. */
  lemma ToBoolTrailingNull()
    ensures ToBool(JString("True" + [0 as char])) == Ok(true)
  {
    ToBoolPadded("True" + [0 as char], "", "True", [0 as char], true);
  }

  /** White space inside the word is not trimmed: "t rue" is rejected. */
  lemma ToBoolInnerSpace()
    ensures ToBool(JString("t rue")) == Err(FormatException)
  {
    TrimPadded("", "t rue", "");
    DifferIgnoringCase("t rue", "True");
    DifferIgnoringCase("t rue", "False");
  }

  /** `token.ToObject<bool>()`. */
  function ToBool(v: JValue): (r: Result<bool>)
    ensures v.JBool? ==> r == Ok(v.b)
    ensures v.JNull? || IsContainer(v) ==> r.Err?
  {
    match v
    case JBool(b) => Ok(b)
    case JInt(i) => Ok(i != 0)
    case JString(s) => ParseBool(s)
    case JNull => Err(ArgumentException("Can not convert Null to Boolean."))
    case JObject(_) => Err(ArgumentException("Can not convert Object to Boolean."))
    case JArray(_) => Err(ArgumentException("Can not convert Array to Boolean."))
  }

  /** An object or an array: a token that cannot be read as a string. */
  predicate IsContainer(v: JValue)
  {
    v.JObject? || v.JArray?
  }

  /** A property named `member` ignoring case holds an object or an array. */
  predicate ContainerMember(props: seq<Property>, member: string)
  {
    exists j | 0 <= j < |props| :: EqualsIgnoreCase(props[j].name, member) && IsContainer(props[j].value)
  }

  /** The value Newtonsoft's deserializer stores into a `string` member of a
      class: properties are read in order and each one whose name matches
      the member ignoring case overwrites it, so the last one wins; a JSON
      null stores null; reading an object or an array as a string throws. */
  function StringMember(props: seq<Property>, member: string): (r: Result<Option<string>>)
    ensures r.Err? <==> ContainerMember(props, member)
    ensures r.Ok? && LastIgnoreCase(props, member).None? ==> r.value.None?
    ensures r.Ok? && LastIgnoreCase(props, member).Some? ==>
              var v := props[LastIgnoreCase(props, member).value].value;
              r.value == (if v.JNull? then None else Some(Text(v)))
  {
    if ContainerMember(props, member) then Err(JsonReaderException)
    else
      match LastIgnoreCase(props, member)
      case None => Ok(None)
      case Some(k) => if props[k].value.JNull? then Ok(None) else Ok(Some(Text(props[k].value)))
  }

  /** The member is read from the last property matching it, when no
      property holds an object or an array. */
  lemma StringMemberAt(props: seq<Property>, k: nat, member: string)
    requires k < |props| && EqualsIgnoreCase(props[k].name, member)
    requires forall j :: k < j < |props| ==> !EqualsIgnoreCase(props[j].name, member)
    requires forall j :: 0 <= j < |props| ==> !IsContainer(props[j].value)
    ensures StringMember(props, member) == Ok(if props[k].value.JNull? then None else Some(Text(props[k].value)))
  {
  }

  /** A C# string as a token: null becomes JSON null. */
  function FromOption(s: Option<string>): (r: JValue)
    ensures r.JNull? <==> s.None?
    ensures s.Some? ==> Text(r) == s.value
  {
    if s.Some? then JString(s.value) else JNull
  }

  /** A member no property matches stays null, when no property holds an
      object or an array. */
  lemma StringMemberAbsent(props: seq<Property>, member: string)
    requires forall j :: 0 <= j < |props| ==> !EqualsIgnoreCase(props[j].name, member)
    requires forall j :: 0 <= j < |props| ==> !IsContainer(props[j].value)
    ensures StringMember(props, member) == Ok(None)
  {
  }
}
