/** The three product categories and their JSON codec (OrderItemCategory). */
module Categories {
  import opened Wrappers

  datatype Category = Standard | Perishable | Digital

  /** Thrown by the enum's valueOf when no constant has the given name. */
  datatype ParseError = NoEnumConstant(name: string)

  /** The constant's declared name, as Java's `name()` returns it. */
  function Name(c: Category): string
  {
    match c
    case Standard => "STANDARD"
    case Perishable => "PERISHABLE"
    case Digital => "DIGITAL"
  }

  // Case mapping is modelled on ASCII letters only.

  function UpperChar(ch: char): char
  {
    if 'a' <= ch <= 'z' then (ch as int - 32) as char else ch
  }

  function LowerChar(ch: char): char
  {
    if 'A' <= ch <= 'Z' then (ch as int + 32) as char else ch
  }

  function ToUpper(s: string): string
  {
    seq(|s|, i requires 0 <= i < |s| => UpperChar(s[i]))
  }

  function ToLower(s: string): string
  {
    seq(|s|, i requires 0 <= i < |s| => LowerChar(s[i]))
  }

  /** Java's String.trim() removes every character at or below U+0020 at either end. */
  predicate IsPad(ch: char)
  {
    ch <= ' '
  }

  predicate AllPad(s: string)
  {
    forall i :: 0 <= i < |s| ==> IsPad(s[i])
  }

  function TrimStart(s: string): string
  {
    if s != [] && IsPad(s[0]) then TrimStart(s[1..]) else s
  }

  function TrimEnd(s: string): string
  {
    if s != [] && IsPad(s[|s| - 1]) then TrimEnd(s[..|s| - 1]) else s
  }

  function Trim(s: string): string
  {
    TrimEnd(TrimStart(s))
  }

  /** `toJson`: the constant's name in lower case. */
  function ToJson(c: Category): (r: string)
    ensures ToUpper(r) == Name(c)
    ensures c == Standard ==> r == "standard"
    ensures c == Perishable ==> r == "perishable"
    ensures c == Digital ==> r == "digital"
  {
    ToLower(Name(c))
  }

  /** `valueOf`: the constant whose name is exactly `name`, or the exception it throws. */
  function ValueOf(name: string): (r: Result<Category, ParseError>)
    ensures forall c :: r == Ok(c) <==> Name(c) == name
    ensures r.Err? <==> forall c :: Name(c) != name
  {
    if name == "STANDARD" then Ok(Standard)
    else if name == "PERISHABLE" then Ok(Perishable)
    else if name == "DIGITAL" then Ok(Digital)
    else Err(NoEnumConstant(name))
  }

  /** `fromJson`: null stays null; any other string is trimmed, upper-cased and
      looked up by constant name. */
  function FromJson(value: Option<string>): (r: Result<Option<Category>, ParseError>)
    ensures value == None ==> r == Ok(None)
    ensures value.Some? ==>
      forall c :: r == Ok(Some(c)) <==> Name(c) == ToUpper(Trim(value.value))
    ensures value.Some? ==>
      (r.Err? <==> forall c :: Name(c) != ToUpper(Trim(value.value)))
  {
    match value
    case None => Ok(None)
    case Some(s) =>
      match ValueOf(ToUpper(Trim(s)))
      case Ok(c) => Ok(Some(c))
      case Err(e) => Err(e)
  }

  // ----- trim -----

  lemma {:induction false} TrimStartSkipsPad(p: string, s: string)
    requires AllPad(p)
    ensures TrimStart(p + s) == TrimStart(s)
  {
    if p != [] {
      assert (p + s)[0] == p[0] && IsPad(p[0]);
      assert (p + s)[1..] == p[1..] + s;
      TrimStartSkipsPad(p[1..], s);
    } else {
      assert p + s == s;
    }
  }

  lemma {:induction false} TrimEndSkipsPad(s: string, p: string)
    requires AllPad(p)
    ensures TrimEnd(s + p) == TrimEnd(s)
  {
    if p != [] {
      var q := p[..|p| - 1];
      assert (s + p)[..|s + p| - 1] == s + q;
      TrimEndSkipsPad(s, q);
    } else {
      assert s + p == s;
    }
  }

  /** Trailing padding survives TrimStart unless the whole string is padding. */
  lemma {:induction false} TrimStartKeepsTail(s: string, p: string)
    requires AllPad(p)
    ensures TrimStart(s) == [] ==> TrimStart(s + p) == []
    ensures TrimStart(s) != [] ==> TrimStart(s + p) == TrimStart(s) + p
  {
    if s == [] {
      assert s + p == p;
      TrimStartSkipsPad(p, []);
      assert p + [] == p;
    } else if IsPad(s[0]) {
      assert (s + p)[1..] == s[1..] + p;
      TrimStartKeepsTail(s[1..], p);
    }
  }

  /** Trimming ignores any padding added at either end. */
  lemma TrimIgnoresPadding(p1: string, s: string, p2: string)
    requires AllPad(p1) && AllPad(p2)
    ensures Trim(p1 + s + p2) == Trim(s)
  {
    assert p1 + s + p2 == p1 + (s + p2);
    TrimStartSkipsPad(p1, s + p2);
    TrimStartKeepsTail(s, p2);
    if TrimStart(s) != [] {
      TrimEndSkipsPad(TrimStart(s), p2);
    }
  }

  /** What TrimStart leaves does not start with padding. */
  lemma {:induction false} TrimStartUnpadded(s: string)
    ensures TrimStart(s) != [] ==> !IsPad(TrimStart(s)[0])
  {
    if s != [] && IsPad(s[0]) {
      TrimStartUnpadded(s[1..]);
    }
  }

  /** What TrimEnd leaves keeps the first character and does not end with padding. */
  lemma {:induction false} TrimEndKeepsFront(s: string)
    ensures TrimEnd(s) != [] ==> |s| > 0 && TrimEnd(s)[0] == s[0] && !IsPad(TrimEnd(s)[|TrimEnd(s)| - 1])
  {
    if s != [] && IsPad(s[|s| - 1]) {
      TrimEndKeepsFront(s[..|s| - 1]);
    }
  }

  /** Trim leaves a string that neither starts nor ends with padding. */
  lemma TrimResultUnpadded(s: string)
    ensures Trim(s) != [] ==> !IsPad(Trim(s)[0]) && !IsPad(Trim(s)[|Trim(s)| - 1])
  {
    TrimStartUnpadded(s);
    TrimEndKeepsFront(TrimStart(s));
  }

  /** A string with no padding at its ends is its own trim. */
  lemma TrimOfUnpadded(s: string)
    requires s != [] ==> !IsPad(s[0]) && !IsPad(s[|s| - 1])
    ensures Trim(s) == s
  {
  }

  // ----- case -----

  lemma {:induction false} UpperTrimStart(s: string)
    ensures ToUpper(TrimStart(s)) == TrimStart(ToUpper(s))
  {
    if s != [] {
      assert ToUpper(s)[1..] == ToUpper(s[1..]);
      UpperTrimStart(s[1..]);
    }
  }

  lemma {:induction false} UpperTrimEnd(s: string)
    ensures ToUpper(TrimEnd(s)) == TrimEnd(ToUpper(s))
  {
    if s != [] {
      var u := ToUpper(s);
      assert u[..|u| - 1] == ToUpper(s[..|s| - 1]);
      UpperTrimEnd(s[..|s| - 1]);
    }
  }

  /** Upper-casing and trimming commute, because case mapping never turns a
      letter into padding or padding into a letter. */
  lemma UpperTrim(s: string)
    ensures ToUpper(Trim(s)) == Trim(ToUpper(s))
  {
    UpperTrimStart(s);
    UpperTrimEnd(TrimStart(s));
  }

  // ----- codec properties -----

  /** Parsing the JSON name of a constant yields that constant. */
  lemma RoundTrip(c: Category)
    ensures FromJson(Some(ToJson(c))) == Ok(Some(c))
  {
    TrimOfUnpadded(ToJson(c));
  }

  /** fromJson is blind to padding at either end. */
  lemma FromJsonIgnoresPadding(p1: string, s: string, p2: string)
    requires AllPad(p1) && AllPad(p2)
    ensures FromJson(Some(p1 + s + p2)) == FromJson(Some(s))
  {
    TrimIgnoresPadding(p1, s, p2);
  }

  /** fromJson is blind to the case of ASCII letters. */
  lemma FromJsonIgnoresCase(s: string, t: string)
    requires ToUpper(s) == ToUpper(t)
    ensures FromJson(Some(s)) == FromJson(Some(t))
  {
    UpperTrim(s);
    UpperTrim(t);
  }

  /** " Standard " parses to STANDARD; "food" is not a constant name. */
  lemma ParseExamples()
    ensures FromJson(Some(" Standard ")) == Ok(Some(Standard))
    ensures FromJson(Some("food")).Err?
  {
    assert " Standard " == " " + "Standard" + " ";
    FromJsonIgnoresPadding(" ", "Standard", " ");
    TrimOfUnpadded("Standard");
    assert ToUpper("Standard") == "STANDARD";
    TrimOfUnpadded("food");
  }
}
