/**
 What the rewriting of numeric-enum-literals.ts does to the conditions on an ENUM column whose values
 are integers. MySQL compares such a column with a bare integer by its position in the list of values,
 with a quoted one by its value, and `CAST(column AS CHAR)` with an integer by its value as a number.
 */
module EnumComparisons {
  import opened Decimals
  import opened Wrappers

  datatype Truth = True | False | Unknown

  datatype Literal = Bare(text: string) | Quoted(text: string)

  datatype EqOp = Equal | NotEqual | NullSafe

  datatype OrderOp = Less | AtMost | More | AtLeast

  /** The column itself, or `CAST(column AS CHAR)`. */
  datatype Column = Plain | AsText

  datatype When = When(lit: Literal, result: Truth)

  datatype Cond =
    | Compare(op: EqOp, lit: Literal)
    | CompareLeft(lit: Literal, op: EqOp)
    | In(negated: bool, items: seq<Literal>)
    | Order(col: Column, op0: OrderOp, n: string)
    | OrderLeft(n: string, op0: OrderOp)
    | Between(col: Column, negated: bool, low: string, high: string)
    | Case(whens: seq<When>, otherwise: Truth)
    | Not(c: Cond)
    | And(l: Cond, r: Cond)
    | Or(l: Cond, r: Cond)

  predicate WrittenIn(items: seq<Literal>) {
    forall i :: 0 <= i < |items| ==> IntegerText(items[i].text)
  }

  predicate WrittenWhens(whens: seq<When>) {
    forall i :: 0 <= i < |whens| ==> IntegerText(whens[i].lit.text)
  }

  /** Every literal is an integer: what the patterns of the rewriting match. */
  predicate Written(c: Cond) {
    match c
    case Compare(_, lit) => IntegerText(lit.text)
    case CompareLeft(lit, _) => IntegerText(lit.text)
    case In(_, items) => WrittenIn(items)
    case Order(_, _, n) => IntegerText(n)
    case OrderLeft(n, _) => IntegerText(n)
    case Between(_, _, low, high) => IntegerText(low) && IntegerText(high)
    case Case(whens, _) => WrittenWhens(whens)
    case Not(d) => Written(d)
    case And(l, r) => Written(l) && Written(r)
    case Or(l, r) => Written(l) && Written(r)
  }

  // ----- the rewriting -----

  function Quote(lit: Literal): Literal {
    Quoted(lit.text)
  }

  function QuoteAll(items: seq<Literal>): seq<Literal> {
    if items == [] then [] else [Quote(items[0])] + QuoteAll(items[1..])
  }

  function QuoteWhens(whens: seq<When>): seq<When> {
    if whens == [] then [] else [When(Quote(whens[0].lit), whens[0].result)] + QuoteWhens(whens[1..])
  }

  /** `quoteNumericEnumLiterals` on one condition. An ordering written `8 > column` matches no pattern. */
  function Rewrite(c: Cond): Cond {
    match c
    case Compare(op, lit) => Compare(op, Quote(lit))
    case CompareLeft(lit, op) => CompareLeft(Quote(lit), op)
    case In(negated, items) => In(negated, QuoteAll(items))
    case Order(_, op, n) => Order(AsText, op, n)
    case OrderLeft(n, op) => c
    case Between(_, negated, low, high) => Between(AsText, negated, low, high)
    case Case(whens, otherwise) => Case(QuoteWhens(whens), otherwise)
    case Not(d) => Not(Rewrite(d))
    case And(l, r) => And(Rewrite(l), Rewrite(r))
    case Or(l, r) => Or(Rewrite(l), Rewrite(r))
  }

  // ----- meaning -----

  /** `MySQL` compares bare integers by position; `ByValue` is what the author of the query meant. */
  datatype Rule = MySQL | ByValue

  /** The values of the column, in the order of its declaration. */
  type Enum = seq<string>

  predicate Numeric(enum: Enum) {
    forall i :: 0 <= i < |enum| ==> IntegerText(enum[i])
  }

  predicate CanonicalEnum(enum: Enum) {
    forall i :: 0 <= i < |enum| ==> Canonical(enum[i])
  }

  /** The value of a row: NULL, or a position in the list. */
  predicate Fits(enum: Enum, row: Option<nat>) {
    row.Some? ==> row.value < |enum|
  }

  function Bool(b: bool): Truth { if b then True else False }

  predicate Same(rule: Rule, enum: Enum, i: nat, lit: Literal)
    requires Numeric(enum) && i < |enum| && IntegerText(lit.text)
  {
    if lit.Quoted? then enum[i] == lit.text
    else if rule.MySQL? then i + 1 == Value(lit.text)
    else Value(enum[i]) == Value(lit.text)
  }

  function Number(rule: Rule, enum: Enum, i: nat, col: Column): int
    requires Numeric(enum) && i < |enum|
  {
    if rule.MySQL? && col.Plain? then i + 1 else Value(enum[i])
  }

  function Equality(rule: Rule, enum: Enum, row: Option<nat>, op: EqOp, lit: Literal): Truth
    requires Numeric(enum) && Fits(enum, row) && IntegerText(lit.text)
  {
    if row.None? then (if op.NullSafe? then False else Unknown)
    else Bool(Same(rule, enum, row.value, lit) != op.NotEqual?)
  }

  predicate Holds(op: OrderOp, a: int, b: int) {
    match op
    case Less => a < b
    case AtMost => a <= b
    case More => a > b
    case AtLeast => a >= b
  }

  predicate AnySame(rule: Rule, enum: Enum, i: nat, items: seq<Literal>)
    requires Numeric(enum) && i < |enum| && WrittenIn(items)
  {
    items != [] && (Same(rule, enum, i, items[0]) || AnySame(rule, enum, i, items[1..]))
  }

  function FirstSame(rule: Rule, enum: Enum, i: nat, whens: seq<When>, otherwise: Truth): Truth
    requires Numeric(enum) && i < |enum| && WrittenWhens(whens)
  {
    if whens == [] then otherwise
    else if Same(rule, enum, i, whens[0].lit) then whens[0].result
    else FirstSame(rule, enum, i, whens[1..], otherwise)
  }

  function Negate(t: Truth): Truth {
    match t case True => False case False => True case Unknown => Unknown
  }

  function Both(a: Truth, b: Truth): Truth {
    if a.False? || b.False? then False else if a.Unknown? || b.Unknown? then Unknown else True
  }

  function Eval(rule: Rule, enum: Enum, row: Option<nat>, c: Cond): Truth
    requires Numeric(enum) && Fits(enum, row) && Written(c)
  {
    match c
    case Compare(op, lit) => Equality(rule, enum, row, op, lit)
    case CompareLeft(lit, op) => Equality(rule, enum, row, op, lit)
    case In(negated, items) => if row.None? then Unknown else Bool(AnySame(rule, enum, row.value, items) != negated)
    case Order(col, op, n) => if row.None? then Unknown
      else Bool(Holds(op, Number(rule, enum, row.value, col), Value(n)))
    case OrderLeft(n, op) => if row.None? then Unknown
      else Bool(Holds(op, Value(n), Number(rule, enum, row.value, Plain)))
    case Between(col, negated, low, high) =>
      if row.None? then Unknown
      else Bool((Value(low) <= Number(rule, enum, row.value, col) <= Value(high)) != negated)
    case Case(whens, otherwise) => if row.None? then otherwise else FirstSame(rule, enum, row.value, whens, otherwise)
    case Not(d) => Negate(Eval(rule, enum, row, d))
    case And(l, r) => Both(Eval(rule, enum, row, l), Eval(rule, enum, row, r))
    case Or(l, r) => Negate(Both(Negate(Eval(rule, enum, row, l)), Negate(Eval(rule, enum, row, r))))
  }

  // ----- the rewriting keeps what was meant -----

  predicate Has(items: seq<Literal>, text: string) {
    exists k :: 0 <= k < |items| && items[k].text == text
  }

  /** An integer with useless zeros stands beside the one without. */
  predicate CoveredItems(items: seq<Literal>)
    requires WrittenIn(items)
  {
    forall i ::
        0 <= i < |items| ==> items[i].Bare? ==> Canonical(items[i].text) || Has(items, Print(Value(items[i].text)))
  }

  predicate CanonicalWhens(whens: seq<When>) {
    forall i :: 0 <= i < |whens| ==> whens[i].lit.Bare? ==> Canonical(whens[i].lit.text)
  }

  /**
   The integers tested for equality are written without useless zeros, or are in a list that has them
   without; and no ordering has the column on its right.
   */
  predicate Proper(c: Cond)
    requires Written(c)
  {
    match c
    case Compare(_, lit) => lit.Bare? ==> Canonical(lit.text)
    case CompareLeft(lit, _) => lit.Bare? ==> Canonical(lit.text)
    case In(_, items) => CoveredItems(items)
    case Order(_, _, _) => true
    case OrderLeft(_, _) => false
    case Between(_, _, _, _) => true
    case Case(whens, _) => CanonicalWhens(whens)
    case Not(d) => Proper(d)
    case And(l, r) => Proper(l) && Proper(r)
    case Or(l, r) => Proper(l) && Proper(r)
  }

  lemma {:induction false} RewriteIsWritten(c: Cond)
    requires Written(c)
    ensures Written(Rewrite(c))
  {
    match c {
      case Compare(_, _) =>
      case CompareLeft(_, _) =>
      case In(_, items) => QuotedItems(items);
      case Order(_, _, _) =>
      case OrderLeft(_, _) =>
      case Between(_, _, _, _) =>
      case Case(whens, _) => QuotedWhens(whens);
      case Not(d) => RewriteIsWritten(d);
      case And(l, r) => RewriteIsWritten(l); RewriteIsWritten(r);
      case Or(l, r) => RewriteIsWritten(l); RewriteIsWritten(r);
    }
  }

  lemma {:induction false} QuotedItems(items: seq<Literal>)
    ensures |QuoteAll(items)| == |items| && forall i :: 0 <= i < |items| ==> QuoteAll(items)[i] == Quote(items[i])
  {
    if items != [] { QuotedItems(items[1..]); }
  }

  lemma {:induction false} QuotedWhens(whens: seq<When>)
    ensures |QuoteWhens(whens)| == |whens|
    ensures forall i :: 0 <= i < |whens| ==> QuoteWhens(whens)[i] == When(Quote(whens[i].lit), whens[i].result)
  {
    if whens != [] { QuotedWhens(whens[1..]); }
  }

  /** Comparing the texts of two integers is comparing the integers. */
  lemma {:induction false} QuotedIsSame(enum: Enum, i: nat, lit: Literal)
    requires CanonicalEnum(enum) && Numeric(enum) && i < |enum| && IntegerText(lit.text)
    requires (lit.Bare? ==> Canonical(lit.text))
    ensures Same(MySQL, enum, i, Quote(lit)) == Same(ByValue, enum, i, lit)
  {
    hide Canonical, Value, Print;
    if lit.Bare? {
      CanonicalIsPrinted(enum[i]);
      CanonicalIsPrinted(lit.text);
    }
  }

  lemma {:induction false} AnySameIff(rule: Rule, enum: Enum, i: nat, items: seq<Literal>)
    requires Numeric(enum) && i < |enum| && WrittenIn(items)
    ensures AnySame(rule, enum, i, items) <==> exists k :: 0 <= k < |items| && Same(rule, enum, i, items[k])
  {
    hide Same, IntegerText;
    if items != [] {
      var rest := items[1..];
      AnySameIff(rule, enum, i, rest);
      if k :| 0 <= k < |rest| && Same(rule, enum, i, rest[k]) { assert Same(rule, enum, i, items[k + 1]); }
      if k :| 0 < k < |items| && Same(rule, enum, i, items[k]) { assert Same(rule, enum, i, rest[k - 1]); }
    }
  }

  /** Once quoted, a list finds a value exactly when it holds its text. */
  lemma {:induction false} QuotedHas(enum: Enum, i: nat, items: seq<Literal>)
    requires Numeric(enum) && i < |enum| && WrittenIn(items)
    ensures WrittenIn(QuoteAll(items)) && (AnySame(MySQL, enum, i, QuoteAll(items)) <==> Has(items, enum[i]))
  {
    hide IntegerText;
    QuotedItems(items);
    var quoted := QuoteAll(items);
    AnySameIff(MySQL, enum, i, quoted);
    if k :| 0 <= k < |items| && items[k].text == enum[i] { assert Same(MySQL, enum, i, quoted[k]); }
    if k :| 0 <= k < |items| && Same(MySQL, enum, i, quoted[k]) { assert items[k].text == enum[i]; }
  }

  lemma {:induction false} QuotedAny(enum: Enum, i: nat, items: seq<Literal>)
    requires CanonicalEnum(enum) && Numeric(enum) && i < |enum| && WrittenIn(items) && CoveredItems(items)
    ensures WrittenIn(QuoteAll(items)) && AnySame(MySQL, enum, i, QuoteAll(items)) == AnySame(ByValue, enum, i, items)
  {
    hide Canonical, IntegerText, Value, Print;
    QuotedHas(enum, i, items);
    AnySameIff(ByValue, enum, i, items);
    CanonicalIsPrinted(enum[i]);
    if k :| 0 <= k < |items| && items[k].text == enum[i] { assert Same(ByValue, enum, i, items[k]); }
    if k :| 0 <= k < |items| && Same(ByValue, enum, i, items[k]) {
      CanonicalIsPrinted(items[k].text);
      assert Has(items, enum[i]) by {
        if items[k].Quoted? || Canonical(items[k].text) { assert items[k].text == enum[i]; }
      }
    }
  }

  lemma {:induction false} QuotedFirst(enum: Enum, i: nat, whens: seq<When>, otherwise: Truth)
    requires CanonicalEnum(enum) && Numeric(enum) && i < |enum| && WrittenWhens(whens) && CanonicalWhens(whens)
    ensures WrittenWhens(QuoteWhens(whens))
    ensures FirstSame(MySQL, enum, i, QuoteWhens(whens), otherwise) == FirstSame(ByValue, enum, i, whens, otherwise)
  {
    hide Canonical, IntegerText, Same;
    QuotedWhens(whens);
    if whens != [] {
      QuotedIsSame(enum, i, whens[0].lit);
      QuotedFirst(enum, i, whens[1..], otherwise);
    }
  }

  /** For MySQL the rewritten condition is the one that was meant, on every row. */
  lemma {:induction false} RewriteIsByValue(enum: Enum, row: Option<nat>, c: Cond)
    requires CanonicalEnum(enum) && Numeric(enum) && Fits(enum, row) && Written(c) && Proper(c)
    ensures Written(Rewrite(c)) && Eval(MySQL, enum, row, Rewrite(c)) == Eval(ByValue, enum, row, c)
  {
    hide Canonical, IntegerText, Same, Value, CanonicalEnum, Numeric, AnySame, FirstSame;
    RewriteIsWritten(c);
    match c {
      case Compare(_, lit) => if row.Some? { QuotedIsSame(enum, row.value, lit); }
      case CompareLeft(lit, _) => if row.Some? { QuotedIsSame(enum, row.value, lit); }
      case In(_, items) => if row.Some? { QuotedAny(enum, row.value, items); }
      case Order(_, _, _) =>
      case OrderLeft(_, _) =>
      case Between(_, _, _, _) =>
      case Case(whens, otherwise) => if row.Some? { QuotedFirst(enum, row.value, whens, otherwise); }
      case Not(d) => RewriteIsByValue(enum, row, d);
      case And(l, r) => RewriteIsByValue(enum, row, l); RewriteIsByValue(enum, row, r);
      case Or(l, r) => RewriteIsByValue(enum, row, l); RewriteIsByValue(enum, row, r);
    }
  }

  /** A rewritten condition is left as it is. */
  lemma {:induction false} RewriteTwice(c: Cond)
    ensures Rewrite(Rewrite(c)) == Rewrite(c)
  {
    match c {
      case Compare(_, _) =>
      case CompareLeft(_, _) =>
      case In(_, items) =>
        QuotedItems(items);
        QuotedItems(QuoteAll(items));
        assert QuoteAll(QuoteAll(items)) == QuoteAll(items);
      case Order(_, _, _) =>
      case OrderLeft(_, _) =>
      case Between(_, _, _, _) =>
      case Case(whens, _) =>
        QuotedWhens(whens);
        QuotedWhens(QuoteWhens(whens));
        assert QuoteWhens(QuoteWhens(whens)) == QuoteWhens(whens);
      case Not(d) => RewriteTwice(d);
      case And(l, r) => RewriteTwice(l); RewriteTwice(r);
      case Or(l, r) => RewriteTwice(l); RewriteTwice(r);
    }
  }

  // ----- when it does not -----

  /** A single comparison, or a list. */
  predicate Atom(c: Cond) {
    c.Compare? || c.CompareLeft? || c.Order? || c.OrderLeft? || c.Between? || c.In?
  }

  ghost predicate AlwaysRight(c: Cond)
    requires Written(c)
  {
    RewriteIsWritten(c);
    forall enum: Enum, row :: CanonicalEnum(enum) && Numeric(enum) && Fits(enum, row)
      ==> Eval(MySQL, enum, row, Rewrite(c)) == Eval(ByValue, enum, row, c)
  }

  /** A column with one value, `n`. */
  function Single(n: int): (enum: Enum)
    ensures CanonicalEnum(enum) && Numeric(enum) && |enum| == 1 && Value(enum[0]) == n
  {
    ValueOfPrint(n);
    [Print(n)]
  }

  /** For a single comparison, or a list, the condition is exact. */
  lemma {:induction false} AtomIsRightIff(c: Cond)
    requires Written(c) && Atom(c)
    ensures AlwaysRight(c) <==> Proper(c)
  {
    if Proper(c) {
      forall enum: Enum, row | CanonicalEnum(enum) && Numeric(enum) && Fits(enum, row)
        ensures Written(Rewrite(c)) && Eval(MySQL, enum, row, Rewrite(c)) == Eval(ByValue, enum, row, c)
      {
        RewriteIsByValue(enum, row, c);
      }
    } else if c.OrderLeft? {
      ReversedOrderGoesWrong(c.n, c.op0);
    } else if c.In? {
      UncoveredGoesWrong(c.negated, c.items);
    } else {
      UselessZeroGoesWrong(c);
    }
  }

  /** `8 > column` compares the position: the only value of a column is always first in its list. */
  lemma {:induction false} ReversedOrderGoesWrong(n: string, op: OrderOp)
    requires IntegerText(n)
    ensures !AlwaysRight(OrderLeft(n, op))
  {
    hide Canonical, Print;
    var k := Value(n);
    var c := OrderLeft(n, op);
    // a value for which the comparison is the other way round than for one
    var v := if Holds(op, k, 1) then (if Holds(op, k, k - 1) then k + 1 else k - 1)
      else if Holds(op, k, k + 1) then k + 1 else k - 1;
    var w := if Holds(op, k, v) != Holds(op, k, 1) then v else k;
    assert Holds(op, k, w) != Holds(op, k, 1);
    assert Eval(MySQL, Single(w), Some(0), Rewrite(c)) != Eval(ByValue, Single(w), Some(0), c);
  }

  /** `column = 07` and `column = -0` find nothing once quoted. */
  lemma {:induction false} UselessZeroGoesWrong(c: Cond)
    requires Written(c) && (c.Compare? || c.CompareLeft?) && c.lit.Bare? && !Canonical(c.lit.text)
    ensures !AlwaysRight(c)
  {
    var enum := Single(Value(c.lit.text));
    hide Canonical, Print, Single;
    assert enum[0] != c.lit.text by { assert CanonicalEnum(enum); }
    assert !Same(MySQL, enum, 0, Quote(c.lit)) && Same(ByValue, enum, 0, c.lit);
    assert Eval(MySQL, enum, Some(0), Rewrite(c)) != Eval(ByValue, enum, Some(0), c);
  }

  /** An integer written with a useless zero, which the list does not have without it. */
  predicate Uncovered(items: seq<Literal>, k: nat) {
    && k < |items| && items[k].Bare? && IntegerText(items[k].text) && !Canonical(items[k].text)
    && !Has(items, Print(Value(items[k].text)))
  }

  lemma {:induction false} SomeUncovered(items: seq<Literal>) returns (k: nat)
    requires WrittenIn(items) && !CoveredItems(items)
    ensures Uncovered(items, k)
  {
    hide Canonical, Value, IntegerText, Print, Has;
    k :| 0 <= k < |items| && items[k].Bare? && !Canonical(items[k].text)
      && !Has(items, Print(Value(items[k].text)));
  }

  /** `column IN (07)`, quoted, misses the value 7. */
  lemma {:induction false} UncoveredGoesWrong(negated: bool, items: seq<Literal>)
    requires WrittenIn(items) && !CoveredItems(items)
    ensures !AlwaysRight(In(negated, items))
  {
    hide Canonical, Single, Value, IntegerText, Print, CoveredItems;
    var c := In(negated, items);
    var k := SomeUncovered(items);
    var enum := Single(Value(items[k].text));
    CanonicalIsPrinted(enum[0]);
    QuotedHas(enum, 0, items);
    AnySameIff(ByValue, enum, 0, items);
    assert Same(ByValue, enum, 0, items[k]);
    assert Eval(MySQL, enum, Some(0), Rewrite(c)) != Eval(ByValue, enum, Some(0), c);
  }

  /** Left as it is, `status = 1` is wrong for every value of `enum('0', '1')`. */
  lemma {:induction false} BareIsWrong(i: nat)
    requires i < 2
    ensures Eval(MySQL, ["0", "1"], Some(i), Compare(Equal, Bare("1")))
      != Eval(ByValue, ["0", "1"], Some(i), Compare(Equal, Bare("1")))
  {
    assert Value("0") == 0 by { assert "0"[..0] == []; }
    assert Value("1") == 1 by { assert "1"[..0] == []; }
  }

  // ----- the WHENs of a CASE -----

  /** What the scan of a simple CASE meets: `CASE`, `END`, `WHEN` with an integer, anything else. */
  datatype Word = Opens | Closes | WhenInteger | Other

  /** Inner CASEs still open before word `k`. */
  function Open(words: seq<Word>, k: nat): int
    requires k <= |words|
  {
    if k == 0 then 0
    else Open(words, k - 1) + (if words[k - 1].Opens? then 1 else if words[k - 1].Closes? then -1 else 0)
  }

  predicate Ends(words: seq<Word>, k: nat)
    requires k < |words|
  {
    words[k].Closes? && Open(words, k) == 0
  }

  predicate Own(words: seq<Word>, k: nat)
    requires k < |words|
  {
    words[k].WhenInteger? && Open(words, k) == 0
  }

  /** The integers quoted are those of the CASE itself: none of an inner CASE, none after its END. */
  method CaseWhens(words: seq<Word>) returns (quoted: seq<nat>, ghost stop: nat)
    ensures stop <= |words| && (stop < |words| ==> Ends(words, stop)) && forall k ::
        0 <= k < stop ==> !Ends(words, k) && Open(words, k) >= 0
    ensures forall i :: 0 <= i < |quoted| ==> quoted[i] < stop && Own(words, quoted[i])
    ensures forall k :: 0 <= k < stop && Own(words, k) ==> k in quoted
    ensures forall i, j :: 0 <= i < j < |quoted| ==> quoted[i] < quoted[j]
  {
    hide Open;
    quoted := [];
    var depth := 0;
    OpenStep(words, 0);
    for k := 0 to |words|
      invariant depth == Open(words, k) >= 0
      invariant forall i :: 0 <= i < k ==> !Ends(words, i) && Open(words, i) >= 0
      invariant forall i :: 0 <= i < |quoted| ==> quoted[i] < k && Own(words, quoted[i])
      invariant forall i :: 0 <= i < k && Own(words, i) ==> i in quoted
      invariant forall i, j :: 0 <= i < j < |quoted| ==> quoted[i] < quoted[j]
    {
      OpenStep(words, k);
      match words[k] {
        case Opens => depth := depth + 1;
        case Closes =>
          if depth == 0 { return quoted, k; }
          depth := depth - 1;
        case WhenInteger =>
          if depth == 0 { quoted := quoted + [k]; }
        case Other =>
      }
    }
    stop := |words|;
  }

  lemma {:induction false} OpenStep(words: seq<Word>, k: nat)
    ensures Open(words, 0) == 0
    ensures k < |words|
      ==> Open(words, k + 1) == Open(words, k) + if words[k].Opens? then 1 else if words[k].Closes? then -1 else 0
  {
  }
}
