/** Reading numeric form fields: the text a field shows for a stored value is read back as that value. */
module FormText {
  import opened Wrappers
  import opened Json
  import opened Decimal

  /** What `trim()` removes. */
  predicate IsSpace(c: char) {
    || '\U{09}' <= c <= '\U{0D}' || c == ' ' || c == '\U{A0}' || c == '\U{1680}' || '\U{2000}' <= c <= '\U{200A}'
    || c == '\U{2028}' || c == '\U{2029}' || c == '\U{202F}' || c == '\U{205F}' || c == '\U{3000}' || c == '\U{FEFF}'
  }

  predicate IsSeparator(c: char) {
    c == '\n' || c == ','
  }

  function TrimStart(s: string): string {
    if s != "" && IsSpace(s[0]) then TrimStart(s[1..]) else s
  }

  function TrimEnd(s: string): string {
    if s != "" && IsSpace(s[|s| - 1]) then TrimEnd(s[..|s| - 1]) else s
  }

  function Trim(s: string): string {
    TrimEnd(TrimStart(s))
  }

  /** `raw.split(/[\n,]/)` */
  function Split(s: string): (parts: seq<string>)
    ensures parts != []
  {
    if s == "" then [""]
    else
      var rest := Split(s[1..]);
      if IsSeparator(s[0]) then [""] + rest else [[s[0]] + rest[0]] + rest[1..]
  }

  /** Trimmed parts that are not empty. */
  function NonBlank(parts: seq<string>): seq<string> {
    if parts == [] then []
    else (if Trim(parts[0]) == "" then [] else [Trim(parts[0])]) + NonBlank(parts[1..])
  }

  function Tokens(raw: string): seq<string> {
    NonBlank(Split(raw))
  }

  /** A text that neither trimming nor splitting changes. */
  predicate IsPlain(s: string) {
    s != "" && forall i | 0 <= i < |s| :: !IsSpace(s[i]) && !IsSeparator(s[i])
  }

  /** `join("\n")` */
  function JoinLines(parts: seq<string>): string {
    if parts == [] then "" else if |parts| == 1 then parts[0] else parts[0] + "\n" + JoinLines(parts[1..])
  }

  lemma TrimPlain(s: string)
    requires IsPlain(s)
    ensures Trim(s) == s
  {}

  lemma {:induction false} TrimEndFacts(s: string)
    ensures TrimEnd(s) <= s
    ensures TrimEnd(s) != "" ==> !IsSpace(TrimEnd(s)[|TrimEnd(s)| - 1])
  {
    if s != "" && IsSpace(s[|s| - 1]) {
      TrimEndFacts(s[..|s| - 1]);
    }
  }

  lemma {:induction false} TrimStartFacts(s: string)
    ensures TrimStart(s) != "" ==> !IsSpace(TrimStart(s)[0])
  {
    if s != "" && IsSpace(s[0]) {
      TrimStartFacts(s[1..]);
    }
  }

  lemma TrimIdempotent(s: string)
    ensures Trim(Trim(s)) == Trim(s)
  {
    TrimStartFacts(s);
    TrimEndFacts(TrimStart(s));
    assert Trim(s) != "" ==> Trim(s)[0] == TrimStart(s)[0];
  }

  lemma {:induction false} SplitPlain(s: string)
    requires forall i | 0 <= i < |s| :: !IsSeparator(s[i])
    ensures Split(s) == [s]
  {
    if s != "" {
      SplitPlain(s[1..]);
      assert [s[0]] + s[1..] == s;
    }
  }

  lemma {:induction false} SplitAfterLine(s: string, rest: string)
    requires forall i | 0 <= i < |s| :: !IsSeparator(s[i])
    ensures Split(s + "\n" + rest) == [s] + Split(rest)
  {
    var text := s + "\n" + rest;
    if s == "" {
      assert text[1..] == rest;
    } else {
      SplitAfterLine(s[1..], rest);
      assert text[1..] == s[1..] + "\n" + rest;
      assert text[0] == s[0];
      assert [s[0]] + s[1..] == s;
    }
  }

  /** Lines of plain texts are split into those texts again. */
  lemma {:induction false} TokensOfLines(parts: seq<string>)
    requires parts != [] && forall p | p in parts :: IsPlain(p)
    ensures Tokens(JoinLines(parts)) == parts
    ensures JoinLines(parts) != "" && Trim(JoinLines(parts)) != ""
  {
    var first := parts[0];
    assert first in parts;
    TrimPlain(first);
    if |parts| == 1 {
      SplitPlain(first);
      assert NonBlank([first]) == [first] + NonBlank([]);
      assert parts == [first];
    } else {
      assert forall p | p in parts[1..] :: p in parts;
      TokensOfLines(parts[1..]);
      SplitAfterLine(first, JoinLines(parts[1..]));
      assert Split(JoinLines(parts))[1..] == Split(JoinLines(parts[1..]));
      assert parts == [first] + parts[1..];
    }
    NotBlank(JoinLines(parts));
  }

  /** A text that starts with a visible character does not trim to nothing. */
  lemma NotBlank(s: string)
    requires s != "" && !IsSpace(s[0])
    ensures Trim(s) != ""
  {
    KeepsFirst(s);
  }

  lemma {:induction false} KeepsFirst(s: string)
    requires s != "" && !IsSpace(s[0])
    ensures TrimEnd(s) != ""
  {
    if IsSpace(s[|s| - 1]) {
      assert s[..|s| - 1][0] == s[0];
      KeepsFirst(s[..|s| - 1]);
    }
  }

  const MAX_SAFE_INTEGER := 9007199254740991

  /** `Number(raw)` for a text of decimal digits that denotes a safe integer. */
  function ParseSafe(raw: string): Option<nat> {
    if raw != "" && AllDigits(raw) && Read(raw) <= MAX_SAFE_INTEGER then Some(Read(raw)) else None
  }

  lemma ParseDigits(n: nat)
    requires n <= MAX_SAFE_INTEGER
    ensures ParseSafe(Digits(n)) == Some(n) && IsPlain(Digits(n))
  {
    ReadDigits(n);
  }

  /** `String(value)`; numbers that are not safe integers, and structured values, print as `show` says. */
  function ShowItem(value: Json, show: Json -> string): string {
    match value
    case Str(s) => s
    case Num(n) => if n == n.Floor as real && 0 <= n.Floor <= MAX_SAFE_INTEGER then Digits(n.Floor) else show(value)
    case _ => show(value)
  }

  function ShowItems(items: seq<Json>, show: Json -> string): (texts: seq<string>)
    ensures |texts| == |items| && forall i | 0 <= i < |items| :: texts[i] == ShowItem(items[i], show)
  {
    seq(|items|, i requires 0 <= i < |items| => ShowItem(items[i], show))
  }

  /** `textValue`: what the field shows. */
  function TextValue(value: Option<Json>, show: Json -> string): string {
    match value
    case Some(Arr(items)) => JoinLines(ShowItems(items, show))
    case Some(Str(s)) => s
    case Some(Num(_)) => ShowItem(value.value, show)
    case Some(Bool(_)) => ShowItem(value.value, show)
    case _ => ""
  }
}

/** `createPolicyNumberTransform` */
module NumberTransform {
  import opened Wrappers
  import opened Json
  import opened DottedPath
  import opened PolicyPath
  import opened Decimal
  import opened FormText

  datatype ConstraintKind = Integer | IntegerList | Mark

  datatype Constraint =
    Constraint(kind: ConstraintKind, maximum: nat, allowed: Option<seq<nat>>, fieldKind: Option<string>)

  /** `undefined`, `null`, or the changed object. */
  datatype Outcome = NotHandled | Rejected | Changed(obj: JsonObject)

  predicate InRange(n: nat, c: Constraint) {
    n <= MAX_SAFE_INTEGER && n <= c.maximum && (c.allowed.Some? ==> n in c.allowed.value)
  }

  function DecimalInteger(raw: string, c: Constraint): Option<nat> {
    var value := ParseSafe(raw);
    if value.Some? && InRange(value.value, c) then value else None
  }

  /** `integerList` on the tokens. */
  function Integers(tokens: seq<string>, c: Constraint): Option<seq<nat>> {
    if tokens == [] then Some([])
    else
      var first, rest := DecimalInteger(tokens[0], c), Integers(tokens[1..], c);
      if first.Some? && rest.Some? then Some([first.value] + rest.value) else None
  }

  function HexDigit(c: char): nat {
    if '0' <= c <= '9' then c as int - '0' as int
    else if 'a' <= c <= 'f' then c as int - 'a' as int + 10
    else if 'A' <= c <= 'F' then c as int - 'A' as int + 10
    else 16
  }

  predicate AllBelow(s: string, base: nat) {
    forall i | 0 <= i < |s| :: HexDigit(s[i]) < base
  }

  function BaseValue(s: string, base: nat): nat {
    if s == "" then 0 else base * BaseValue(s[..|s| - 1], base) + HexDigit(s[|s| - 1])
  }

  /** The value of a prefixed number: "0" with octal digits, or an 0x, 0b or 0o prefix. */
  function PrefixedValue(raw: string): Option<nat> {
    if |raw| < 2 || raw[0] != '0' then None
    else if AllBelow(raw[1..], 8) then Some(BaseValue(raw[1..], 8))
    else if |raw| < 3 then None
    else if (raw[1] == 'x' || raw[1] == 'X') && AllBelow(raw[2..], 16) then Some(BaseValue(raw[2..], 16))
    else if (raw[1] == 'b' || raw[1] == 'B') && AllBelow(raw[2..], 2) then Some(BaseValue(raw[2..], 2))
    else if (raw[1] == 'o' || raw[1] == 'O') && AllBelow(raw[2..], 8) then Some(BaseValue(raw[2..], 8))
    else None
  }

  predicate StringMark(raw: string, maximum: nat) {
    PrefixedValue(raw).Some? && PrefixedValue(raw).value <= maximum
  }

  function NumberList(values: seq<nat>): Json {
    Arr(seq(|values|, i requires 0 <= i < |values| => Num(values[i] as real)))
  }

  function Transform(obj: JsonObject, path: Path, fieldKind: Option<string>, constraint: Option<Constraint>,
                     raw: string): Outcome
  {
    if constraint.None? then NotHandled
    else
      var c := constraint.value;
      if c.fieldKind.Some? && c.fieldKind != fieldKind then NotHandled
      else
        var token := Trim(raw);
        if token == "" then Changed(Set(obj, path, None))
        else if c.kind == Mark && StringMark(token, c.maximum) then Changed(Set(obj, path, Some(Str(token))))
        else if c.kind == IntegerList then
          var values := Integers(Tokens(raw), c);
          if values.None? then Rejected else Changed(Set(obj, path, Some(NumberList(values.value))))
        else
          var value := DecimalInteger(token, c);
          if value.None? then Rejected else Changed(Set(obj, path, Some(Num(value.value as real))))
  }

  /** A value that the constraint allows. */
  ghost predicate Valid(value: Json, c: Constraint) {
    match c.kind
    case IntegerList => exists ns: seq<nat> :: value == NumberList(ns) && forall n | n in ns :: InRange(n, c)
    case Integer => exists n: nat :: value == Num(n as real) && InRange(n, c)
    case Mark =>
      (value.Str? && StringMark(value.s, c.maximum)) || exists n: nat :: value == Num(n as real) && InRange(n, c)
  }

  lemma {:induction false} IntegersInRange(tokens: seq<string>, c: Constraint)
    ensures Integers(tokens, c).Some? ==>
              |Integers(tokens, c).value| == |tokens| && forall n | n in Integers(tokens, c).value :: InRange(n, c)
  {
    if tokens != [] {
      IntegersInRange(tokens[1..], c);
    }
  }

  /** An accepted input stores a value the constraint allows, or clears the field. */
  lemma {:induction false} StoresOnlyValid(obj: JsonObject, path: Path, fieldKind: Option<string>, c: Constraint,
                                           raw: string)
    ensures var r := Transform(obj, path, fieldKind, Some(c), raw);
            r.Changed? ==> Get(r.obj, path) == None || Valid(Get(r.obj, path).value, c)
  {
    var token := Trim(raw);
    var r := Transform(obj, path, fieldKind, Some(c), raw);
    if r.Changed? {
      if token == "" {
        GetSet(obj, path, None);
      } else if c.kind == Mark && StringMark(token, c.maximum) {
        GetSet(obj, path, Some(Str(token)));
      } else if c.kind == IntegerList {
        IntegersInRange(Tokens(raw), c);
        GetSet(obj, path, Some(NumberList(Integers(Tokens(raw), c).value)));
      } else {
        GetSet(obj, path, Some(Num(DecimalInteger(token, c).value as real)));
      }
    }
  }

  function Texts(values: seq<nat>): (texts: seq<string>)
    ensures |texts| == |values| && forall i | 0 <= i < |values| :: texts[i] == Digits(values[i])
  {
    seq(|values|, i requires 0 <= i < |values| => Digits(values[i]))
  }

  lemma {:induction false} IntegersOfTexts(values: seq<nat>, c: Constraint)
    requires forall n | n in values :: InRange(n, c)
    ensures Integers(Texts(values), c) == Some(values)
  {
    if values != [] {
      assert values[0] in values;
      assert forall n | n in values[1..] :: n in values;
      ParseDigits(values[0]);
      IntegersOfTexts(values[1..], c);
      assert Texts(values)[1..] == Texts(values[1..]);
      assert values == [values[0]] + values[1..];
    }
  }

  /** The text of a decimal is not a prefixed number. */
  lemma DecimalIsNoMark(n: nat, maximum: nat)
    ensures !StringMark(Digits(n), maximum)
  {
    ReadDigits(n);
  }

  lemma ListTextReadsBack(values: seq<nat>, c: Constraint, show: Json -> string)
    requires values != [] && forall n | n in values :: InRange(n, c)
    ensures var text := TextValue(Some(NumberList(values)), show);
            Trim(text) != "" && Integers(Tokens(text), c) == Some(values)
  {
    var texts := ShowItems(NumberList(values).items, show);
    forall i | 0 <= i < |values|
      ensures texts[i] == Digits(values[i]) && IsPlain(texts[i])
    {
      assert values[i] in values;
      ParseDigits(values[i]);
      assert (values[i] as real).Floor == values[i];
    }
    assert texts == Texts(values);
    TokensOfLines(texts);
    IntegersOfTexts(values, c);
  }

  /** Only separators, in a list field: the empty list is stored. */
  predicate OnlySeparators(c: Constraint, raw: string) {
    c.kind == IntegerList && Trim(raw) != "" && Tokens(raw) == []
  }

  /** What an accepted input stores. */
  function Stored(c: Constraint, raw: string): Option<Json> {
    var token := Trim(raw);
    if token == "" then None
    else if c.kind == Mark && StringMark(token, c.maximum) then Some(Str(token))
    else if c.kind == IntegerList then
      var values := Integers(Tokens(raw), c);
      if values.Some? then Some(NumberList(values.value)) else None
    else
      var value := DecimalInteger(token, c);
      if value.Some? then Some(Num(value.value as real)) else None
  }

  predicate Handled(c: Constraint, fieldKind: Option<string>) {
    c.fieldKind.None? || c.fieldKind == fieldKind
  }

  predicate Accepts(c: Constraint, raw: string) {
    Trim(raw) == "" || Stored(c, raw).Some?
  }

  lemma TransformStores(obj: JsonObject, path: Path, fieldKind: Option<string>, c: Constraint, raw: string)
    ensures var r := Transform(obj, path, fieldKind, Some(c), raw);
            (r.Changed? <==> Handled(c, fieldKind) && Accepts(c, raw))
            && (r.Changed? ==> r.obj == Set(obj, path, Stored(c, raw)))
  {}

  lemma NumberReadsBack(c: Constraint, n: nat, show: Json -> string)
    requires InRange(n, c) && c.kind != IntegerList
    ensures var text := TextValue(Some(Num(n as real)), show);
            Accepts(c, text) && Stored(c, text) == Some(Num(n as real))
  {
    ParseDigits(n);
    TrimPlain(Digits(n));
    DecimalIsNoMark(n, c.maximum);
    assert (n as real).Floor == n;
  }

  /** The text of a stored value stores the same value. */
  lemma StoredReadsBack(c: Constraint, raw: string, show: Json -> string)
    requires Accepts(c, raw) && !OnlySeparators(c, raw)
    ensures var text := TextValue(Stored(c, raw), show);
            Accepts(c, text) && Stored(c, text) == Stored(c, raw)
  {
    var token := Trim(raw);
    TrimIdempotent(raw);
    if token == "" {
      assert Trim("") == "";
    } else if c.kind == Mark && StringMark(token, c.maximum) {
    } else if c.kind == IntegerList {
      IntegersInRange(Tokens(raw), c);
      ListTextReadsBack(Integers(Tokens(raw), c).value, c, show);
    } else {
      NumberReadsBack(c, DecimalInteger(token, c).value, show);
    }
  }

  lemma ReadingBack(obj: JsonObject, path: Path, fieldKind: Option<string>, c: Constraint, raw: string,
                    show: Json -> string)
    requires Transform(obj, path, fieldKind, Some(c), raw).Changed? && !OnlySeparators(c, raw)
    ensures var next := Transform(obj, path, fieldKind, Some(c), raw).obj;
            Transform(next, path, fieldKind, Some(c), TextValue(Get(next, path), show)) == Changed(next)
  {
    var value := Stored(c, raw);
    TransformStores(obj, path, fieldKind, c, raw);
    StoredReadsBack(c, raw, show);
    GetSet(obj, path, value);
    SetSet(obj, path, value, value);
    TransformStores(Set(obj, path, value), path, fieldKind, c, TextValue(value, show));
  }

  lemma MarkIsPlain(s: string, maximum: nat)
    requires StringMark(s, maximum)
    ensures IsPlain(s)
  {
    forall i | 0 <= i < |s|
      ensures !IsSpace(s[i]) && !IsSeparator(s[i])
    {
      if i >= 1 && AllBelow(s[1..], 8) {
        assert HexDigit(s[1..][i - 1]) < 8;
      } else if i >= 2 {
        assert s[2..][i - 2] == s[i];
      }
    }
  }

  /** Every value the constraint allows can be entered: the text shown for it is accepted and stores it. */
  lemma {:induction false} ShownValueIsAccepted(obj: JsonObject, path: Path, fieldKind: Option<string>, c: Constraint,
                                                value: Json, show: Json -> string)
    requires Handled(c, fieldKind) && Valid(value, c) && value != Arr([])
    ensures Transform(obj, path, fieldKind, Some(c), TextValue(Some(value), show)) ==
            Changed(Set(obj, path, Some(value)))
  {
    var text := TextValue(Some(value), show);
    if c.kind == IntegerList {
      var ns: seq<nat> :| value == NumberList(ns) && forall n | n in ns :: InRange(n, c);
      assert ns == [] ==> NumberList(ns) == Arr([]);
      ListTextReadsBack(ns, c, show);
    } else if value.Str? {
      MarkIsPlain(value.s, c.maximum);
      TrimPlain(value.s);
    } else {
      var n: nat :| value == Num(n as real) && InRange(n, c);
      NumberReadsBack(c, n, show);
    }
    TransformStores(obj, path, fieldKind, c, text);
  }

  /** Feeding the shown text back stores the same object, for every accepted input but one kind: in a list
      field, an input of separators only stores the empty list, and its text clears the field. */
  lemma {:induction false} ShownTextReadsBackIff(obj: JsonObject, path: Path, fieldKind: Option<string>, c: Constraint,
                                                 raw: string, show: Json -> string)
    requires Transform(obj, path, fieldKind, Some(c), raw).Changed?
    ensures var next := Transform(obj, path, fieldKind, Some(c), raw).obj;
            Transform(next, path, fieldKind, Some(c), TextValue(Get(next, path), show)) == Changed(next)
            <==> !OnlySeparators(c, raw)
  {
    if OnlySeparators(c, raw) {
      var next := Transform(obj, path, fieldKind, Some(c), raw).obj;
      GetSet(obj, path, Some(NumberList([])));
      assert next == Set(obj, path, Some(NumberList([])));
      assert NumberList([]) == Arr([]);
      GetSet(next, path, None);
    } else {
      ReadingBack(obj, path, fieldKind, c, raw, show);
    }
  }

  const PORTS := Constraint(IntegerList, 65535, None, None)

  /** A comma alone in a list of ports stores the empty list, whose text clears the field. */
  lemma CommaDoesNotReadBack(obj: JsonObject, path: Path, show: Json -> string)
    ensures var stored := Set(obj, path, Some(Arr([])));
            Transform(obj, path, None, Some(PORTS), ",") == Changed(stored)
            && Transform(stored, path, None, Some(PORTS), TextValue(Get(stored, path), show)) != Changed(stored)
  {
    assert ","[1..] == "" && FormText.Split("") == [""];
    assert FormText.Split(",") == ["", ""];
    assert ["", ""][1..] == [""] && [""][1..] == [];
    assert Tokens(",") == [];
    assert Trim(",") == ",";
    assert OnlySeparators(PORTS, ",");
    assert NumberList([]) == Arr([]);
    ShownTextReadsBackIff(obj, path, None, PORTS, ",", show);
  }
}

/** `transformQueryType`: numbers up to 65535 and names of record types. How a name is recognised is a
    parameter; recognised names are recognised as themselves and are plain texts that are not numbers. */
module QueryTypeTransform {
  import opened Wrappers
  import opened Json
  import opened DottedPath
  import opened PolicyPath
  import opened Decimal
  import opened FormText
  import opened NumberTransform

  const QUERY_TYPE: Path := ["query_type"]
  const TYPE_RANGE := Constraint(Integer, 65535, None, None)

  ghost predicate StableNames(canonical: string -> Option<string>) {
    forall token | canonical(token).Some? ::
      var name := canonical(token).value;
      canonical(name) == Some(name) && IsPlain(name) && !AllDigits(name)
  }

  /** `queryTypeNames.get(raw.toUpperCase())`: the map is built from the list, so the last name with the same
      upper-case form counts. */
  function Canonical(names: seq<string>, upper: string -> string, token: string): Option<string> {
    if names == [] then None
    else
      var last := names[|names| - 1];
      if upper(last) == upper(token) then Some(last) else Canonical(names[..|names| - 1], upper, token)
  }

  lemma {:induction false} CanonicalFacts(names: seq<string>, upper: string -> string, token: string)
    ensures var found := Canonical(names, upper, token);
            found.Some? ==> found.value in names && Canonical(names, upper, found.value) == found
  {
    if names != [] && upper(names[|names| - 1]) != upper(token) {
      CanonicalFacts(names[..|names| - 1], upper, token);
      var found := Canonical(names, upper, token);
      if found.Some? {
        SameUpper(names[..|names| - 1], upper, token);
      }
    }
  }

  lemma {:induction false} SameUpper(names: seq<string>, upper: string -> string, token: string)
    ensures Canonical(names, upper, token).Some? ==> upper(Canonical(names, upper, token).value) == upper(token)
  {
    if names != [] {
      SameUpper(names[..|names| - 1], upper, token);
    }
  }

  /** A table of names that are plain texts and no numbers recognises its names as themselves. */
  lemma TableIsStable(names: seq<string>, upper: string -> string)
    requires forall name | name in names :: IsPlain(name) && !AllDigits(name)
    ensures StableNames(token => Canonical(names, upper, token))
  {
    forall token
      ensures var found := Canonical(names, upper, token);
              found.Some? ==> found.value in names && Canonical(names, upper, found.value) == found
    {
      CanonicalFacts(names, upper, token);
    }
  }

  function Token(raw: string, canonical: string -> Option<string>): Option<Json> {
    var numeric := DecimalInteger(raw, TYPE_RANGE);
    if numeric.Some? then Some(Num(numeric.value as real))
    else if canonical(raw).Some? then Some(Str(canonical(raw).value)) else None
  }

  function TokenValues(tokens: seq<string>, canonical: string -> Option<string>): (values: Option<seq<Json>>)
    ensures values.Some? ==> |values.value| == |tokens|
  {
    if tokens == [] then Some([])
    else
      var first, rest := Token(tokens[0], canonical), TokenValues(tokens[1..], canonical);
      if first.Some? && rest.Some? then Some([first.value] + rest.value) else None
  }

  function Transform(obj: JsonObject, raw: string, canonical: string -> Option<string>): Option<JsonObject> {
    var tokens := Tokens(raw);
    if tokens == [] then Some(Set(obj, QUERY_TYPE, None))
    else
      var values := TokenValues(tokens, canonical);
      if values.None? then None
      else
        var current := Get(obj, QUERY_TYPE);
        var asList := (current.Some? && current.value.Arr?) || |values.value| > 1 || current.None?;
        Some(Set(obj, QUERY_TYPE, Some(if asList then Arr(values.value) else values.value[0])))
  }

  ghost predicate ValidItem(value: Json, canonical: string -> Option<string>) {
    || (exists n: nat :: InRange(n, TYPE_RANGE) && value == Num(n as real))
    || (value.Str? && canonical(value.s) == Some(value.s) && IsPlain(value.s) && !AllDigits(value.s))
  }

  lemma TokenValid(raw: string, canonical: string -> Option<string>)
    requires StableNames(canonical)
    ensures Token(raw, canonical).Some? ==> ValidItem(Token(raw, canonical).value, canonical)
  {}

  lemma {:induction false} TokenValuesValid(tokens: seq<string>, canonical: string -> Option<string>)
    requires StableNames(canonical)
    ensures var r := TokenValues(tokens, canonical);
            r.Some? ==> |r.value| == |tokens| && forall v | v in r.value :: ValidItem(v, canonical)
  {
    if tokens != [] {
      TokenValid(tokens[0], canonical);
      TokenValuesValid(tokens[1..], canonical);
    }
  }

  lemma ItemReadsBack(value: Json, canonical: string -> Option<string>, show: Json -> string)
    requires ValidItem(value, canonical)
    ensures IsPlain(ShowItem(value, show)) && Token(ShowItem(value, show), canonical) == Some(value)
  {
    if value.Num? {
      var n: nat :| InRange(n, TYPE_RANGE) && value == Num(n as real);
      assert (n as real).Floor == n;
      ParseDigits(n);
    }
  }

  lemma {:induction false} ItemsReadBack(values: seq<Json>, canonical: string -> Option<string>, show: Json -> string)
    requires forall v | v in values :: ValidItem(v, canonical)
    ensures forall t | t in ShowItems(values, show) :: IsPlain(t)
    ensures TokenValues(ShowItems(values, show), canonical) == Some(values)
  {
    if values != [] {
      assert values[0] in values;
      assert forall v | v in values[1..] :: v in values;
      ItemReadsBack(values[0], canonical, show);
      ItemsReadBack(values[1..], canonical, show);
      assert ShowItems(values, show)[1..] == ShowItems(values[1..], show);
      assert values == [values[0]] + values[1..];
    }
  }

  /** Every accepted input stores numbers in range and recognised names, and the text shown for them is read
      back as the same object. */
  lemma {:induction false} QueryTypeReadsBack(obj: JsonObject, raw: string, canonical: string -> Option<string>,
                                              show: Json -> string)
    requires StableNames(canonical) && Transform(obj, raw, canonical).Some?
    ensures var next := Transform(obj, raw, canonical).value;
            Transform(next, TextValue(Get(next, QUERY_TYPE), show), canonical) == Some(next)
  {
    var tokens := Tokens(raw);
    if tokens == [] {
      GetSet(obj, QUERY_TYPE, None);
      SetSet(obj, QUERY_TYPE, None, None);
    } else {
      var values := TokenValues(tokens, canonical).value;
      TokenValuesValid(tokens, canonical);
      var current := Get(obj, QUERY_TYPE);
      if (current.Some? && current.value.Arr?) || |values| > 1 || current.None? {
        ListReadsBack(obj, values, canonical, show);
      } else {
        assert values[0] in values;
        SingleStoredReadsBack(obj, values[0], canonical, show);
      }
    }
  }

  lemma ListReadsBack(obj: JsonObject, values: seq<Json>, canonical: string -> Option<string>, show: Json -> string)
    requires values != [] && forall v | v in values :: ValidItem(v, canonical)
    ensures var next := Set(obj, QUERY_TYPE, Some(Arr(values)));
            Transform(next, TextValue(Get(next, QUERY_TYPE), show), canonical) == Some(next)
  {
    ItemsReadBack(values, canonical, show);
    GetSet(obj, QUERY_TYPE, Some(Arr(values)));
    SetSet(obj, QUERY_TYPE, Some(Arr(values)), Some(Arr(values)));
    TokensOfLines(ShowItems(values, show));
  }

  lemma SingleStoredReadsBack(obj: JsonObject, value: Json, canonical: string -> Option<string>, show: Json -> string)
    requires ValidItem(value, canonical)
    ensures var next := Set(obj, QUERY_TYPE, Some(value));
            Transform(next, TextValue(Get(next, QUERY_TYPE), show), canonical) == Some(next)
  {
    SingleReadsBack(value, canonical, show);
    GetSet(obj, QUERY_TYPE, Some(value));
    SetSet(obj, QUERY_TYPE, Some(value), Some(value));
  }

  lemma SingleReadsBack(value: Json, canonical: string -> Option<string>, show: Json -> string)
    requires ValidItem(value, canonical)
    ensures var text := TextValue(Some(value), show);
            Tokens(text) == [text] && TokenValues([text], canonical) == Some([value]) && !value.Arr?
  {
    ItemReadsBack(value, canonical, show);
    var text := ShowItem(value, show);
    TokensOfLines([text]);
    assert [value] == [value] + [];
    assert TokenValues([text][1..], canonical) == Some([]);
  }
}

/** The table of record type names, and the theorems of the query type field for it. */
module QueryTypeNames {
  import opened Wrappers
  import opened Json
  import opened PolicyPath
  import opened Decimal
  import opened FormText
  import opened QueryTypeTransform

  const NAMES_A: seq<string> := [
    "A", "AAAA", "AFSDB", "AMTRELAY", "ANY", "APL", "ATMA", "AVC", "AXFR", "CAA"
  ]

  const NAMES_B: seq<string> := [
    "CDNSKEY", "CDS", "CERT", "CNAME", "CSYNC", "DHCID", "DLV", "DNAME", "DNSKEY", "DS"
  ]

  const NAMES_C: seq<string> := [
    "EID", "EUI48", "EUI64", "GID", "GPOS", "HINFO", "HIP", "HTTPS", "IPSECKEY", "ISDN"
  ]

  const NAMES_D: seq<string> := [
    "IXFR", "KEY", "KX", "L32", "L64", "LOC", "LP", "MAILA", "MAILB", "MB"
  ]

  const NAMES_E: seq<string> := [
    "MD", "MF", "MG", "MINFO", "MR", "MX", "NAPTR", "NID", "NIMLOC", "NINFO"
  ]

  const NAMES_F: seq<string> := [
    "NS", "NSEC", "NSEC3", "NSEC3PARAM", "NULL", "NXNAME", "NXT", "None", "OPENPGPKEY", "OPT"
  ]

  const NAMES_G: seq<string> := [
    "PTR", "PX", "RESINFO", "RKEY", "RP", "RRSIG", "RT", "Reserved", "SIG", "SMIMEA"
  ]

  const NAMES_H: seq<string> := [
    "SOA", "SPF", "SRV", "SSHFP", "SVCB", "TA", "TALINK", "TKEY", "TLSA", "TSIG"
  ]

  const NAMES_I: seq<string> := [
    "TXT", "UID", "UINFO", "UNSPEC", "URI", "X25", "ZONEMD", "NSAP-PTR"
  ]

  /** `queryTypeNames` */
  const NAMES: seq<string> := NAMES_A + NAMES_B + NAMES_C + NAMES_D + NAMES_E + NAMES_F
                               + NAMES_G + NAMES_H + NAMES_I

  /** A capital letter first, and no character below the hyphen or above "z": no space, comma or line break. */
  predicate IsName(s: string) {
    s != "" && 'A' <= s[0] <= 'Z' && forall i | 0 <= i < |s| :: '-' <= s[i] <= 'z'
  }

  ghost predicate AllNames(names: seq<string>) {
    forall i | 0 <= i < |names| :: IsName(names[i])
  }

  lemma NamesA()
    ensures AllNames(NAMES_A)
  {}

  lemma NamesB()
    ensures AllNames(NAMES_B)
  {}

  lemma NamesC()
    ensures AllNames(NAMES_C)
  {}

  lemma NamesD()
    ensures AllNames(NAMES_D)
  {}

  lemma NamesE()
    ensures AllNames(NAMES_E)
  {}

  lemma NamesF()
    ensures AllNames(NAMES_F)
  {}

  lemma NamesG()
    ensures AllNames(NAMES_G)
  {}

  lemma NamesH()
    ensures AllNames(NAMES_H)
  {}

  lemma NamesI()
    ensures AllNames(NAMES_I)
  {}

  lemma NamesConcat(a: seq<string>, b: seq<string>)
    requires AllNames(a) && AllNames(b)
    ensures AllNames(a + b)
  {}

  lemma FiveConcat(a: seq<string>, b: seq<string>, c: seq<string>, d: seq<string>, e: seq<string>)
    requires AllNames(a) && AllNames(b) && AllNames(c) && AllNames(d) && AllNames(e)
    ensures AllNames(a + b + c + d + e)
  {
    NamesConcat(a, b);
    NamesConcat(a + b, c);
    NamesConcat(a + b + c, d);
    NamesConcat(a + b + c + d, e);
  }

  lemma TableOfNames()
    ensures AllNames(NAMES)
  {
    NamesA();
    NamesB();
    NamesC();
    NamesD();
    NamesE();
    NamesF();
    NamesG();
    NamesH();
    NamesI();
    FiveConcat(NAMES_A, NAMES_B, NAMES_C, NAMES_D, NAMES_E);
    FiveConcat(NAMES_A + NAMES_B + NAMES_C + NAMES_D + NAMES_E, NAMES_F, NAMES_G, NAMES_H, NAMES_I);
  }

  /** How the field recognises a name, whatever upper case is. */
  function Recognise(names: seq<string>, upper: string -> string): string -> Option<string> {
    token => Canonical(names, upper, token)
  }

  lemma NamesAreStable(names: seq<string>, upper: string -> string)
    requires AllNames(names)
    ensures StableNames(Recognise(names, upper))
  {
    forall name | name in names
      ensures IsPlain(name) && !AllDigits(name)
    {
      var i :| 0 <= i < |names| && names[i] == name;
      assert IsName(names[i]) && !IsDigit(name[0]);
    }
    TableIsStable(names, upper);
    assert forall token :: Recognise(names, upper)(token) == Canonical(names, upper, token);
  }

  /** The query type field of the form: after every accepted input the shown text stores the same object. */
  lemma {:induction false} QueryTypeFieldReadsBack(obj: JsonObject, raw: string, upper: string -> string,
                                                   show: Json -> string)
    requires Transform(obj, raw, Recognise(NAMES, upper)).Some?
    ensures var next := Transform(obj, raw, Recognise(NAMES, upper)).value;
            Transform(next, TextValue(Get(next, QUERY_TYPE), show), Recognise(NAMES, upper)) == Some(next)
  {
    TableOfNames();
    NamesAreStable(NAMES, upper);
    QueryTypeReadsBack(obj, raw, Recognise(NAMES, upper), show);
  }
}
