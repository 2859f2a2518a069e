/** What a numeric or query type field makes of an input, told by the characters of the input. */
module NumberInput {
  import opened Wrappers
  import opened Json
  import opened DottedPath
  import opened PolicyPath
  import opened Decimal
  import opened FormText
  import opened NumberTransform

  // ---- Blanks and separators ----

  /** The white space and line ends of ECMAScript, by their code points. */
  predicate IsBlank(c: char) {
    var n := c as int;
    || n == 0x20 || n == 0x09 || n == 0x0A || n == 0x0D || n == 0x0B || n == 0x0C || n == 0xA0 || n == 0x1680
    || 0x2000 <= n <= 0x200A || n == 0x2028 || n == 0x2029 || n == 0x202F || n == 0x205F || n == 0x3000
    || n == 0xFEFF
  }

  predicate AllBlank(s: string) {
    forall i | 0 <= i < |s| :: IsBlank(s[i])
  }

  /** What may stand around the texts of a list: blanks, line ends and commas. */
  predicate IsGap(s: string) {
    forall i | 0 <= i < |s| :: IsBlank(s[i]) || s[i] == ','
  }

  predicate Separates(s: string) {
    IsGap(s) && exists i :: 0 <= i < |s| && (s[i] == ',' || s[i] == '\n')
  }

  lemma BlankIsSpace()
    ensures forall c :: IsBlank(c) <==> IsSpace(c)
    ensures IsBlank(' ') && IsBlank('\t') && IsBlank('\r') && IsBlank('\n')
  {}

  // ---- Trimming ----

  lemma {:induction false} TrimStartDrops(pre: string, s: string)
    requires AllBlank(pre)
    ensures TrimStart(pre + s) == TrimStart(s)
  {
    BlankIsSpace();
    if pre == "" {
      assert pre + s == s;
    } else {
      TrimStartDrops(pre[1..], s);
      assert (pre + s)[1..] == pre[1..] + s;
    }
  }

  lemma {:induction false} TrimEndDrops(s: string, post: string)
    requires AllBlank(post)
    ensures TrimEnd(s + post) == TrimEnd(s)
  {
    BlankIsSpace();
    if post == "" {
      assert s + post == s;
    } else {
      var init := post[..|post| - 1];
      TrimEndDrops(s, init);
      assert (s + post)[..|s + post| - 1] == s + init;
    }
  }

  lemma {:induction false} TrimStartKeeps(s: string, post: string)
    requires !AllBlank(s)
    ensures TrimStart(s + post) == TrimStart(s) + post && TrimStart(s) != ""
  {
    BlankIsSpace();
    if IsBlank(s[0]) {
      assert !AllBlank(s[1..]) by {
        var i :| 0 <= i < |s| && !IsBlank(s[i]);
        assert s[1..][i - 1] == s[i];
      }
      TrimStartKeeps(s[1..], post);
      assert (s + post)[1..] == s[1..] + post;
    }
  }

  lemma {:induction false} TrimAllBlank(s: string)
    ensures Trim(s) == "" <==> AllBlank(s)
  {
    BlankIsSpace();
    if AllBlank(s) {
      TrimStartDrops(s, "");
      assert s + "" == s;
    } else {
      TrimStartKeeps(s, "");
      TrimStartFacts(s);
      NotBlank(TrimStart(s));
      KeepsFirst(TrimStart(s));
    }
  }

  /** Blanks around a text are dropped. */
  lemma TrimAround(pre: string, s: string, post: string)
    requires AllBlank(pre) && AllBlank(post)
    ensures Trim(pre + s + post) == Trim(s)
  {
    assert pre + s + post == pre + (s + post);
    TrimStartDrops(pre, s + post);
    if AllBlank(s) {
      TrimAllBlank(s + post);
      TrimAllBlank(s);
    } else {
      TrimStartKeeps(s, post);
      TrimEndDrops(TrimStart(s), post);
    }
  }

  /** A text without a blank at either end stays as it is. */
  predicate IsBare(s: string) {
    s != "" && !IsBlank(s[0]) && !IsBlank(s[|s| - 1])
  }

  lemma TrimBare(s: string)
    requires IsBare(s)
    ensures Trim(s) == s
  {
    BlankIsSpace();
  }

  // ---- Splitting ----

  function Last(parts: seq<string>): string
    requires parts != []
  {
    parts[|parts| - 1]
  }

  function Init(parts: seq<string>): seq<string>
    requires parts != []
  {
    parts[..|parts| - 1]
  }

  /** The last part of the one and the first part of the other are one part. */
  function Joined(x: seq<string>, y: seq<string>): seq<string>
    requires x != [] && y != []
  {
    Init(x) + [Last(x) + y[0]] + y[1..]
  }

  lemma JoinedEmpty(y: seq<string>)
    requires y != []
    ensures Joined([""], y) == y
  {
    assert "" + y[0] == y[0];
  }

  lemma JoinedBehind(rest: seq<string>, y: seq<string>)
    requires rest != [] && y != []
    ensures [""] + Joined(rest, y) == Joined([""] + rest, y)
  {}

  lemma JoinedHead(c: string, rest: seq<string>, y: seq<string>)
    requires rest != [] && y != []
    ensures var joined := Joined(rest, y);
            [c + joined[0]] + joined[1..] == Joined([c + rest[0]] + rest[1..], y)
  {
    if |rest| == 1 {
      assert c + (rest[0] + y[0]) == c + rest[0] + y[0];
    }
  }

  lemma SplitStep(s: string)
    requires s != ""
    ensures var rest := FormText.Split(s[1..]);
            FormText.Split(s) == if IsSeparator(s[0]) then [""] + rest else [[s[0]] + rest[0]] + rest[1..]
  {}

  /** Splitting a text put together from two splits both; the part in the middle is put together. */
  lemma {:induction false} SplitConcat(a: string, b: string)
    ensures FormText.Split(a + b) == Joined(FormText.Split(a), FormText.Split(b))
  {
    var y := FormText.Split(b);
    if a == "" {
      assert a + b == b;
      JoinedEmpty(y);
    } else {
      var rest := FormText.Split(a[1..]);
      SplitConcat(a[1..], b);
      assert (a + b)[1..] == a[1..] + b && (a + b)[0] == a[0];
      SplitStep(a);
      SplitStep(a + b);
      JoinedBehind(rest, y);
      JoinedHead([a[0]], rest, y);
    }
  }

  lemma NonBlankHead(parts: seq<string>)
    requires parts != []
    ensures NonBlank(parts) == NonBlank([parts[0]]) + NonBlank(parts[1..])
  {
    NonBlankOne(parts[0]);
  }

  lemma {:induction false} NonBlankConcat(a: seq<string>, b: seq<string>)
    ensures NonBlank(a + b) == NonBlank(a) + NonBlank(b)
  {
    if a == [] {
      assert a + b == b;
    } else {
      var first, rest := NonBlank([a[0]]), a[1..];
      NonBlankHead(a);
      NonBlankHead(a + b);
      NonBlankConcat(rest, b);
      assert (a + b)[1..] == rest + b && (a + b)[0] == a[0];
      assert first + (NonBlank(rest) + NonBlank(b)) == (first + NonBlank(rest)) + NonBlank(b);
    }
  }

  ghost predicate BlankParts(parts: seq<string>) {
    forall i | 0 <= i < |parts| :: AllBlank(parts[i])
  }

  lemma {:induction false} NonBlankNone(parts: seq<string>)
    requires BlankParts(parts)
    ensures NonBlank(parts) == []
  {
    if parts != [] {
      TrimAllBlank(parts[0]);
      NonBlankNone(parts[1..]);
    }
  }

  /** The parts of a gap are blank. */
  lemma {:induction false} GapParts(g: string)
    requires IsGap(g)
    ensures BlankParts(FormText.Split(g))
  {
    BlankIsSpace();
    if g != "" {
      GapParts(g[1..]);
    }
  }

  lemma NonBlankOne(part: string)
    ensures NonBlank([part]) == if Trim(part) == "" then [] else [Trim(part)]
  {
    assert [part][1..] == [];
  }

  lemma SameTrim(a: string, b: string)
    requires Trim(a) == Trim(b)
    ensures NonBlank([a]) == NonBlank([b])
  {
    NonBlankOne(a);
    NonBlankOne(b);
  }

  lemma BlankEnds(s: string, post: string)
    requires AllBlank(post)
    ensures NonBlank([s + post]) == NonBlank([s])
  {
    TrimAround("", s, post);
    assert "" + s + post == s + post;
    SameTrim(s + post, s);
  }

  lemma BlankStart(pre: string, s: string)
    requires AllBlank(pre)
    ensures NonBlank([pre + s]) == NonBlank([s])
  {
    TrimAround(pre, s, "");
    assert pre + s + "" == pre + s;
    SameTrim(pre + s, s);
  }

  lemma NonBlankMiddle(a: seq<string>, part: string, b: seq<string>)
    ensures NonBlank(a + [part] + b) == NonBlank(a) + NonBlank([part]) + NonBlank(b)
  {
    NonBlankConcat(a + [part], b);
    NonBlankConcat(a, [part]);
  }

  /** A gap in front adds no text. */
  lemma TokensBefore(pre: string, s: string)
    requires IsGap(pre)
    ensures Tokens(pre + s) == Tokens(s)
  {
    var x, y := FormText.Split(pre), FormText.Split(s);
    GapParts(pre);
    SplitConcat(pre, s);
    BlankStart(Last(x), y[0]);
    NonBlankNone(Init(x));
    NonBlankMiddle(Init(x), Last(x) + y[0], y[1..]);
    NonBlankHead(y);
  }

  /** Nor does a gap at the end. */
  lemma TokensAfter(s: string, post: string)
    requires IsGap(post)
    ensures Tokens(s + post) == Tokens(s)
  {
    var x, y := FormText.Split(s), FormText.Split(post);
    GapParts(post);
    SplitConcat(s, post);
    BlankEnds(Last(x), y[0]);
    NonBlankNone(y[1..]);
    NonBlankMiddle(Init(x), Last(x) + y[0], y[1..]);
    NonBlankMiddle(Init(x), Last(x), []);
    assert x == Init(x) + [Last(x)] + [];
  }

  lemma {:induction false} SplitAtSeparator(a: string, c: char, b: string)
    requires c == ',' || c == '\n'
    ensures FormText.Split(a + [c] + b) == FormText.Split(a) + FormText.Split(b)
  {
    var text, x, y := a + [c] + b, FormText.Split(a), FormText.Split(b);
    assert text == a + ([c] + b) && ([c] + b)[1..] == b;
    SplitConcat(a, [c] + b);
    SplitStep([c] + b);
    assert Joined(x, [""] + y) == Init(x) + [Last(x) + ""] + y;
    assert Last(x) + "" == Last(x) && Init(x) + [Last(x)] == x;
  }

  /** Texts on both sides of a separator are read on their own. */
  lemma TokensBetween(s: string, g: string, rest: string)
    requires Separates(g)
    ensures Tokens(s + g + rest) == Tokens(s) + Tokens(rest)
  {
    var i :| 0 <= i < |g| && (g[i] == ',' || g[i] == '\n');
    assert s + g + rest == (s + g[..i]) + [g[i]] + (g[i + 1..] + rest);
    SplitAtSeparator(s + g[..i], g[i], g[i + 1..] + rest);
    NonBlankConcat(FormText.Split(s + g[..i]), FormText.Split(g[i + 1..] + rest));
    TokensAfter(s, g[..i]);
    TokensBefore(g[i + 1..], rest);
  }

  // ---- Lists of texts ----

  /** A text of printable characters without a comma. */
  predicate IsInk(s: string) {
    s != "" && forall i | 0 <= i < |s| :: '!' <= s[i] <= '~' && s[i] != ','
  }

  /** The texts, each with what follows it. */
  function Written(texts: seq<string>, gaps: seq<string>): string
    requires |texts| == |gaps|
  {
    if texts == [] then "" else texts[0] + gaps[0] + Written(texts[1..], gaps[1..])
  }

  /** Something separates each text from the next one; after the last one anything blank may stand. */
  ghost predicate AreGaps(gaps: seq<string>) {
    forall i | 0 <= i < |gaps| :: IsGap(gaps[i]) && (i < |gaps| - 1 ==> Separates(gaps[i]))
  }

  lemma TokensOfInk(s: string)
    requires IsInk(s)
    ensures Tokens(s) == [s] && IsPlain(s)
  {
    TokensOfLines([s]);
  }

  /** Whatever blanks, line ends and commas stand around and between them, the texts are read in their order. */
  lemma {:induction false} TokensOfWritten(lead: string, texts: seq<string>, gaps: seq<string>)
    requires |texts| == |gaps| && IsGap(lead) && AreGaps(gaps) && forall t | t in texts :: IsInk(t)
    ensures Tokens(lead + Written(texts, gaps)) == texts
  {
    TokensBefore(lead, Written(texts, gaps));
    WrittenTokens(texts, gaps);
  }

  lemma {:induction false} WrittenTokens(texts: seq<string>, gaps: seq<string>)
    requires |texts| == |gaps| && AreGaps(gaps) && forall t | t in texts :: IsInk(t)
    ensures Tokens(Written(texts, gaps)) == texts
  {
    if texts == [] {
      assert FormText.Split("") == [""];
      NonBlankOne("");
    } else {
      assert texts[0] in texts && forall t | t in texts[1..] :: t in texts;
      TokensOfInk(texts[0]);
      if |texts| == 1 {
        TokensAfter(texts[0], gaps[0]);
        assert texts[0] + gaps[0] + "" == texts[0] + gaps[0];
      } else {
        WrittenTokens(texts[1..], gaps[1..]);
        TokensBetween(texts[0], gaps[0], Written(texts[1..], gaps[1..]));
      }
    }
  }

  lemma WrittenIsNotBlank(lead: string, texts: seq<string>, gaps: seq<string>)
    requires |texts| == |gaps| > 0 && IsInk(texts[0])
    ensures Trim(lead + Written(texts, gaps)) != ""
  {
    var s := lead + Written(texts, gaps);
    assert s[|lead|] == texts[0][0];
    TrimAllBlank(s);
  }

  // ---- Outcomes ----

  /** The number may be stored. */
  predicate IsAllowed(n: nat, c: Constraint) {
    n <= 9007199254740991 && n <= c.maximum && (c.allowed.Some? ==> n in c.allowed.value)
  }

  predicate Applies(c: Constraint, fieldKind: Option<string>) {
    c.fieldKind == None || c.fieldKind == fieldKind
  }

  /** The field is left to others exactly when there is no constraint for it or the constraint is for another kind
      of field. */
  lemma NotHandledIff(obj: JsonObject, path: Path, fieldKind: Option<string>, constraint: Option<Constraint>,
                      raw: string)
    ensures Transform(obj, path, fieldKind, constraint, raw) == NotHandled <==>
            constraint.None? || !Applies(constraint.value, fieldKind)
  {}

  /** Blanks before and after an input make no difference, in whatever field. */
  lemma BlanksAround(obj: JsonObject, path: Path, fieldKind: Option<string>, constraint: Option<Constraint>,
                     pre: string, s: string, post: string)
    requires AllBlank(pre) && AllBlank(post)
    ensures Transform(obj, path, fieldKind, constraint, pre + s + post) ==
            Transform(obj, path, fieldKind, constraint, s)
  {
    TrimAround(pre, s, post);
    TokensBefore(pre, s);
    TokensAfter(pre + s, post);
  }

  /** Blanks alone clear the field. */
  lemma BlanksClear(obj: JsonObject, path: Path, fieldKind: Option<string>, c: Constraint, raw: string)
    requires Applies(c, fieldKind) && AllBlank(raw)
    ensures Transform(obj, path, fieldKind, Some(c), raw) == Changed(Set(obj, path, None))
  {
    TrimAllBlank(raw);
  }

  lemma {:induction false} ZerosRead(zeros: string, s: string)
    requires (forall i | 0 <= i < |zeros| :: zeros[i] == '0') && AllDigits(s)
    ensures AllDigits(zeros + s) && Read(zeros + s) == Read(s)
  {
    if s == "" {
      assert zeros + s == zeros;
      if zeros != "" {
        ZerosRead(zeros[..|zeros| - 1], "");
        assert zeros[..|zeros| - 1] + "" == zeros[..|zeros| - 1];
      }
    } else {
      var init := s[..|s| - 1];
      ZerosRead(zeros, init);
      assert (zeros + s)[..|zeros + s| - 1] == zeros + init;
    }
  }

  lemma DigitsAllowed(n: nat, c: Constraint)
    ensures DecimalInteger(Digits(n), c) == (if IsAllowed(n, c) then Some(n) else None)
    ensures IsInk(Digits(n)) && IsBare(Digits(n))
  {
    ReadDigits(n);
  }

  /** A decimal number in an integer or mark field is stored if it is allowed and rejected otherwise. */
  lemma NumberStored(obj: JsonObject, path: Path, fieldKind: Option<string>, c: Constraint, n: nat)
    requires Applies(c, fieldKind) && (c.kind == Integer || c.kind == Mark)
    ensures Transform(obj, path, fieldKind, Some(c), Digits(n)) ==
            if IsAllowed(n, c) then Changed(Set(obj, path, Some(Num(n as real)))) else Rejected
  {
    DigitsAllowed(n, c);
    TrimBare(Digits(n));
    DecimalIsNoMark(n, c.maximum);
  }

  /** In an integer field zeros in front make no difference. */
  lemma ZerosStored(obj: JsonObject, path: Path, fieldKind: Option<string>, c: Constraint, zeros: string, n: nat)
    requires Applies(c, fieldKind) && c.kind == Integer && forall i | 0 <= i < |zeros| :: zeros[i] == '0'
    ensures Transform(obj, path, fieldKind, Some(c), zeros + Digits(n)) ==
            Transform(obj, path, fieldKind, Some(c), Digits(n))
  {
    ReadDigits(n);
    ZerosRead(zeros, Digits(n));
    BareDigits(Digits(n));
    BareDigits(zeros + Digits(n));
  }

  lemma BareDigits(s: string)
    requires s != "" && AllDigits(s)
    ensures Trim(s) == s
  {
    TrimBare(s);
  }

  /** An integer field rejects everything else: signs, points, letters, blanks inside. */
  lemma JunkRejected(obj: JsonObject, path: Path, fieldKind: Option<string>, c: Constraint, s: string, i: nat)
    requires Applies(c, fieldKind) && c.kind == Integer
    requires IsBare(s) && i < |s| && !('0' <= s[i] <= '9')
    ensures Transform(obj, path, fieldKind, Some(c), s) == Rejected
  {
    TrimBare(s);
  }

  // ---- Lists ----

  lemma NumberListItems(values: seq<nat>)
    ensures NumberList(values).Arr? && |NumberList(values).items| == |values|
    ensures forall i | 0 <= i < |values| :: NumberList(values).items[i] == Num(values[i] as real)
  {}

  lemma TextsTail(values: seq<nat>)
    requires values != []
    ensures Texts(values) == [Digits(values[0])] + Texts(values[1..])
  {
    forall i | 0 <= i < |values|
      ensures Texts(values)[i] == ([Digits(values[0])] + Texts(values[1..]))[i]
    {
      if i > 0 {
        assert values[1..][i - 1] == values[i];
      }
    }
  }

  lemma IntegersStep(text: string, rest: seq<string>, c: Constraint)
    ensures var first, others := DecimalInteger(text, c), Integers(rest, c);
            Integers([text] + rest, c) ==
            if first.Some? && others.Some? then Some([first.value] + others.value) else None
  {
    assert ([text] + rest)[1..] == rest;
  }

  lemma {:induction false} IntegersOfDigits(values: seq<nat>, c: Constraint)
    ensures Integers(Texts(values), c) ==
            if forall n | n in values :: IsAllowed(n, c) then Some(values) else None
  {
    if values != [] {
      DigitsAllowed(values[0], c);
      IntegersOfDigits(values[1..], c);
      TextsTail(values);
      IntegersStep(Digits(values[0]), Texts(values[1..]), c);
      assert values == [values[0]] + values[1..];
    }
  }

  /** Numbers entered in a list field, with any blanks around them and separated by commas or line ends, are stored
      in their order if all of them are allowed; otherwise the input is rejected. */
  lemma {:induction false} ListStored(obj: JsonObject, path: Path, fieldKind: Option<string>, c: Constraint,
                                      lead: string, values: seq<nat>, gaps: seq<string>)
    requires Applies(c, fieldKind) && c.kind == IntegerList
    requires values != [] && |gaps| == |values| && IsGap(lead) && AreGaps(gaps)
    ensures Transform(obj, path, fieldKind, Some(c), lead + Written(Texts(values), gaps)) ==
            if forall n | n in values :: IsAllowed(n, c) then Changed(Set(obj, path, Some(NumberList(values))))
            else Rejected
  {
    forall t | t in Texts(values)
      ensures IsInk(t)
    {
      var i :| 0 <= i < |values| && Texts(values)[i] == t;
      DigitsAllowed(values[i], c);
    }
    TokensOfWritten(lead, Texts(values), gaps);
    WrittenIsNotBlank(lead, Texts(values), gaps);
    IntegersOfDigits(values, c);
  }

  lemma {:induction false} JunkFails(texts: seq<string>, c: Constraint, k: nat, i: nat)
    requires k < |texts| && i < |texts[k]| && !('0' <= texts[k][i] <= '9')
    ensures Integers(texts, c) == None
  {
    if k > 0 {
      JunkFails(texts[1..], c, k - 1, i);
    }
  }

  /** One text that is no number makes a list field reject the whole input. */
  lemma ListJunkRejected(obj: JsonObject, path: Path, fieldKind: Option<string>, c: Constraint, lead: string,
                         texts: seq<string>, gaps: seq<string>, k: nat, i: nat)
    requires Applies(c, fieldKind) && c.kind == IntegerList
    requires |gaps| == |texts| && IsGap(lead) && AreGaps(gaps) && forall t | t in texts :: IsInk(t)
    requires k < |texts| && i < |texts[k]| && !('0' <= texts[k][i] <= '9')
    ensures Transform(obj, path, fieldKind, Some(c), lead + Written(texts, gaps)) == Rejected
  {
    TokensOfWritten(lead, texts, gaps);
    assert texts[0] in texts;
    WrittenIsNotBlank(lead, texts, gaps);
    JunkFails(texts, c, k, i);
  }

  lemma PortTexts()
    ensures Digits(80) == "80" && Digits(443) == "443"
  {
    assert Digits(80) == Digits(8) + "0" && Digits(44) == Digits(4) + "4" && Digits(443) == Digits(44) + "3";
  }

  lemma WrittenPorts()
    ensures "" + Written(Texts([80, 443]), [", ", ""]) == "80, 443"
  {
    PortTexts();
    var texts, gaps := Texts([80, 443]), [", ", ""];
    assert Written(texts[1..], gaps[1..]) == "443" + "" + "";
    assert Written(texts, gaps) == "80" + ", " + "443";
  }

  /** Two ports with a comma and a blank between them. */
  lemma PortsStored(obj: JsonObject, path: Path)
    ensures Transform(obj, path, None, Some(PORTS), "80, 443") ==
            Changed(Set(obj, path, Some(Arr([Num(80.0), Num(443.0)]))))
  {
    WrittenPorts();
    var values: seq<nat>, gaps := [80, 443], [", ", ""];
    assert gaps[0][0] == ',';
    ListStored(obj, path, None, PORTS, "", values, gaps);
    assert NumberList(values).items == [Num(80.0), Num(443.0)];
  }

  // ---- Marks ----

  function DigitIn(n: nat, upper: bool): char
    requires n < 16
  {
    if upper then "0123456789ABCDEF"[n] else "0123456789abcdef"[n]
  }

  /** The text of a number in a base, with capital or small letters. */
  function InBase(n: nat, base: nat, upper: bool): string
    requires 2 <= base <= 16
  {
    if n < base then [DigitIn(n, upper)] else InBase(n / base, base, upper) + [DigitIn(n % base, upper)]
  }

  lemma DigitInBase(n: nat, upper: bool)
    requires n < 16
    ensures HexDigit(DigitIn(n, upper)) == n
  {}

  /** The text reads as the number. */
  predicate ReadsAs(s: string, base: nat, n: nat) {
    s != "" && AllBelow(s, base) && BaseValue(s, base) == n
  }

  lemma ReadsStep(s: string, base: nat, q: nat, d: nat, upper: bool)
    requires 2 <= base <= 16 && d < base && ReadsAs(s, base, q)
    ensures ReadsAs(s + [DigitIn(d, upper)], base, base * q + d)
  {
    var c := DigitIn(d, upper);
    DigitInBase(d, upper);
    assert (s + [c])[..|s + [c]| - 1] == s;
  }

  lemma ReadsOne(base: nat, d: nat, upper: bool)
    requires 2 <= base <= 16 && d < base
    ensures ReadsAs([DigitIn(d, upper)], base, d)
  {
    DigitInBase(d, upper);
    assert [DigitIn(d, upper)][..0] == "";
  }

  lemma Quotient(n: nat, base: nat)
    requires 2 <= base <= n
    ensures 0 <= n / base < n && 0 <= n % base < base && n == base * (n / base) + n % base
  {}

  lemma {:induction false} ReadInBase(n: nat, base: nat, upper: bool)
    requires 2 <= base <= 16
    ensures ReadsAs(InBase(n, base, upper), base, n)
  {
    if n < base {
      ReadsOne(base, n, upper);
    } else {
      Quotient(n, base);
      var q: nat, d: nat := n / base, n % base;
      ReadInBase(q, base, upper);
      ReadsStep(InBase(q, base, upper), base, q, d, upper);
    }
  }

  /** What may stand in front of the digits of a mark. */
  predicate IsPrefix(prefix: string, base: nat) {
    || (prefix == "0" && base == 8)
    || ((prefix == "0x" || prefix == "0X") && base == 16)
    || ((prefix == "0b" || prefix == "0B") && base == 2)
    || ((prefix == "0o" || prefix == "0O") && base == 8)
  }

  lemma PrefixedText(prefix: string, base: nat, digits: string)
    requires IsPrefix(prefix, base) && digits != "" && AllBelow(digits, base)
    ensures PrefixedValue(prefix + digits) == Some(BaseValue(digits, base))
  {
    var s := prefix + digits;
    assert s[|prefix|..] == digits;
    if prefix != "0" {
      assert s[1..][0] == prefix[1];
    }
  }

  /** Read as a decimal, octal digits mean at least as much. */
  lemma {:induction false} OctalBelowDecimal(s: string)
    requires AllBelow(s, 8)
    ensures AllDigits(s) && BaseValue(s, 8) <= Read(s)
  {
    if s != "" {
      OctalBelowDecimal(s[..|s| - 1]);
    }
  }

  lemma BareMark(prefix: string, base: nat, digits: string)
    requires IsPrefix(prefix, base) && digits != "" && AllBelow(digits, base)
    ensures Trim(prefix + digits) == prefix + digits
  {
    assert (prefix + digits)[|prefix + digits| - 1] == digits[|digits| - 1];
    TrimBare(prefix + digits);
  }

  lemma TooLargeMark(prefix: string, base: nat, digits: string, c: Constraint)
    requires IsPrefix(prefix, base) && digits != "" && AllBelow(digits, base) && BaseValue(digits, base) > c.maximum
    ensures DecimalInteger(prefix + digits, c) == None
  {
    if prefix == "0" {
      OctalBelowDecimal(digits);
      ZerosRead("0", digits);
    } else {
      assert (prefix + digits)[1] == prefix[1];
    }
  }

  /** A mark field stores an octal, hexadecimal or binary text as it stands if its number is within the maximum, and
      rejects it otherwise. */
  lemma {:induction false} MarkStored(obj: JsonObject, path: Path, fieldKind: Option<string>, c: Constraint,
                                      prefix: string, base: nat, upper: bool, n: nat)
    requires Applies(c, fieldKind) && c.kind == Mark && IsPrefix(prefix, base)
    ensures var text := prefix + InBase(n, base, upper);
            Transform(obj, path, fieldKind, Some(c), text) ==
            if n <= c.maximum then Changed(Set(obj, path, Some(Str(text)))) else Rejected
  {
    var digits := InBase(n, base, upper);
    ReadInBase(n, base, upper);
    PrefixedText(prefix, base, digits);
    BareMark(prefix, base, digits);
    if n > c.maximum {
      TooLargeMark(prefix, base, digits, c);
    }
  }

  /** A character that is neither a letter nor a digit makes a mark field reject the input. */
  lemma MarkJunkRejected(obj: JsonObject, path: Path, fieldKind: Option<string>, c: Constraint, s: string, i: nat)
    requires Applies(c, fieldKind) && c.kind == Mark && IsBare(s) && i < |s|
    requires !('0' <= s[i] <= '9') && !('a' <= s[i] <= 'z') && !('A' <= s[i] <= 'Z')
    ensures Transform(obj, path, fieldKind, Some(c), s) == Rejected
  {
    TrimBare(s);
    if i >= 1 {
      assert s[1..][i - 1] == s[i];
    }
    if i >= 2 {
      assert s[2..][i - 2] == s[i];
    }
  }
}

/** What the query type field makes of an input. */
module QueryTypeInput {
  import opened Wrappers
  import opened Json
  import opened DottedPath
  import opened PolicyPath
  import opened Decimal
  import opened FormText
  import opened NumberInput
  import opened QueryTypeTransform

  /** The name at this place equals the token in upper case, and no later one does. */
  ghost predicate IsLastMatch(names: seq<string>, upper: string -> string, token: string, k: nat) {
    && k < |names| && upper(names[k]) == upper(token)
    && forall j | k < j < |names| :: upper(names[j]) != upper(token)
  }

  lemma MatchStays(names: seq<string>, last: string, upper: string -> string, token: string, k: nat)
    requires IsLastMatch(names, upper, token, k) && upper(last) != upper(token)
    ensures IsLastMatch(names + [last], upper, token, k) && (names + [last])[k] == names[k]
  {}

  /** A name is recognised if it equals one of the table when both are written in upper case; of several the last one
      counts. */
  lemma {:induction false} RecognisedIff(names: seq<string>, upper: string -> string, token: string)
    ensures match Canonical(names, upper, token)
            case None => forall k | 0 <= k < |names| :: upper(names[k]) != upper(token)
            case Some(name) => exists k: nat :: IsLastMatch(names, upper, token, k) && names[k] == name
  {
    if names != [] {
      var init, last := names[..|names| - 1], names[|names| - 1];
      assert names == init + [last];
      if upper(last) == upper(token) {
        assert IsLastMatch(names, upper, token, |names| - 1);
      } else {
        RecognisedIff(init, upper, token);
        if Canonical(init, upper, token).Some? {
          var k: nat :| IsLastMatch(init, upper, token, k) && init[k] == Canonical(init, upper, token).value;
          MatchStays(init, last, upper, token, k);
        }
      }
    }
  }

  /** What one text of the input stands for: a number up to 65535 or a recognised name. */
  ghost predicate Means(text: string, value: Json, canonical: string -> Option<string>) {
    || (exists n: nat :: n <= 65535 && text == Digits(n) && value == Num(n as real))
    || (!AllDigits(text) && value.Str? && canonical(text) == Some(value.s))
  }

  lemma MeansToken(text: string, value: Json, canonical: string -> Option<string>)
    requires Means(text, value, canonical)
    ensures Token(text, canonical) == Some(value)
  {
    if n: nat :| n <= 65535 && text == Digits(n) && value == Num(n as real) {
      ReadDigits(n);
    }
  }

  lemma {:induction false} AllMeant(texts: seq<string>, values: seq<Json>, canonical: string -> Option<string>)
    requires |texts| == |values| && forall i | 0 <= i < |texts| :: Means(texts[i], values[i], canonical)
    ensures TokenValues(texts, canonical) == Some(values)
  {
    if texts != [] {
      MeansToken(texts[0], values[0], canonical);
      AllMeant(texts[1..], values[1..], canonical);
      assert values == [values[0]] + values[1..];
    }
  }

  /** Numbers and names are stored in their order, whatever blanks stand around them: as a list, unless there is one
      only and the object has a single value already. */
  lemma {:induction false} QueryTypesStored(obj: JsonObject, canonical: string -> Option<string>, lead: string,
                                            texts: seq<string>, gaps: seq<string>, values: seq<Json>)
    requires texts != [] && |texts| == |gaps| == |values| && IsGap(lead) && AreGaps(gaps)
    requires forall i | 0 <= i < |texts| :: IsInk(texts[i]) && Means(texts[i], values[i], canonical)
    ensures var single := |values| == 1 && Get(obj, ["query_type"]).Some? && !Get(obj, ["query_type"]).value.Arr?;
            Transform(obj, lead + Written(texts, gaps), canonical) ==
            Some(Set(obj, ["query_type"], Some(if single then values[0] else Arr(values))))
  {
    TokensOfWritten(lead, texts, gaps);
    AllMeant(texts, values, canonical);
  }

  /** One text that is neither makes the field reject the whole input. */
  lemma {:induction false} QueryTypesRejected(obj: JsonObject, canonical: string -> Option<string>, lead: string,
                                              texts: seq<string>, gaps: seq<string>, k: nat)
    requires |texts| == |gaps| && IsGap(lead) && AreGaps(gaps) && forall t | t in texts :: IsInk(t)
    requires k < |texts| && canonical(texts[k]) == None
    requires !AllDigits(texts[k]) || exists n: nat :: n > 65535 && texts[k] == Digits(n)
    ensures Transform(obj, lead + Written(texts, gaps), canonical) == None
  {
    TokensOfWritten(lead, texts, gaps);
    if n: nat :| n > 65535 && texts[k] == Digits(n) {
      ReadDigits(n);
    }
    OneFails(texts, canonical, k);
  }

  lemma {:induction false} OneFails(texts: seq<string>, canonical: string -> Option<string>, k: nat)
    requires k < |texts| && Token(texts[k], canonical) == None
    ensures TokenValues(texts, canonical) == None
  {
    if k > 0 {
      OneFails(texts[1..], canonical, k - 1);
    }
  }

  /** Blanks, line ends and commas alone clear the field. */
  lemma GapClears(obj: JsonObject, canonical: string -> Option<string>, raw: string)
    requires IsGap(raw)
    ensures Transform(obj, raw, canonical) == Some(Set(obj, ["query_type"], None))
  {
    TokensBefore(raw, "");
    assert raw + "" == raw;
    WrittenTokens([], []);
  }
}

/** What a field shows for a stored value. */
module ShownText {
  import opened Wrappers
  import opened Json
  import opened Decimal
  import opened FormText
  import opened NumberInput

  /** Lists are shown one item a line. */
  lemma {:induction false} LineByLine(texts: seq<string>, last: string)
    ensures JoinLines([]) == "" && JoinLines([last]) == last
    ensures texts != [] ==> JoinLines(texts + [last]) == JoinLines(texts) + "\n" + last
  {
    if |texts| > 1 {
      LineByLine(texts[1..], last);
      assert (texts + [last])[1..] == texts[1..] + [last];
      assert texts[0] + "\n" + (JoinLines(texts[1..]) + "\n" + last)
          == (texts[0] + "\n" + JoinLines(texts[1..])) + "\n" + last;
    } else if |texts| == 1 {
      assert (texts + [last])[1..] == [last];
    }
  }

  /** A text and a number are shown as they are; nothing, null and an object show no text. */
  lemma ShownSingle(s: string, n: nat, fields: map<string, Json>, show: Json -> string)
    requires n <= 9007199254740991
    ensures TextValue(Some(Str(s)), show) == s && TextValue(Some(Num(n as real)), show) == Digits(n)
    ensures TextValue(None, show) == "" && TextValue(Some(Null), show) == ""
    ensures TextValue(Some(Obj(fields)), show) == ""
  {
    assert (n as real).Floor == n;
  }

  /** In a list every text and every number stands on its line. */
  lemma ShownList(items: seq<Json>, texts: seq<string>, show: Json -> string)
    requires |items| == |texts|
    requires forall i | 0 <= i < |items| ::
               items[i] == Str(texts[i]) || exists n: nat :: IsNumber(items[i], n) && texts[i] == Digits(n)
    ensures TextValue(Some(Arr(items)), show) == JoinLines(texts)
  {
    forall i | 0 <= i < |items|
      ensures ShowItems(items, show)[i] == texts[i]
    {
      if items[i] != Str(texts[i]) {
        var n: nat :| IsNumber(items[i], n) && texts[i] == Digits(n);
        assert (n as real).Floor == n;
      }
    }
    assert ShowItems(items, show) == texts;
  }

  predicate IsNumber(value: Json, n: nat) {
    n <= 9007199254740991 && value == Num(n as real)
  }

  /** Two ports. */
  lemma PortsShown(show: Json -> string)
    ensures TextValue(Some(Arr([Num(80.0), Num(443.0)])), show) == "80\n443"
  {
    PortTexts();
    assert IsNumber(Num(80.0), 80) && IsNumber(Num(443.0), 443);
    ShownList([Num(80.0), Num(443.0)], ["80", "443"], show);
    LineByLine(["80"], "443");
    LineByLine([], "80");
    assert ["80"] + ["443"] == ["80", "443"] && "80" + "\n" + "443" == "80\n443";
  }
}
