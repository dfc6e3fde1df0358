/** Customer display codes such as MBGA-R-0001: formatting, reading back and allocating. */
module Codes {
  import opened Wrappers
  import opened Decimal
  import opened Text

  const CODE_PREFIX := "MBGA"
  const PAD_WIDTH := 4

  function Short(prefix: string): string {
    if prefix == "RETAIL" || prefix == "INDUSTRIAL" then prefix[..1] else prefix
  }

  function FormatCode(prefix: string, value: nat): string {
    CODE_PREFIX + "-" + Short(prefix) + "-" + Padded(value, PAD_WIDTH)
  }

  lemma PrintOneMore(n: nat)
    requires n >= 10
    ensures Print(n) == Print(n / 10) + [Digit(n % 10)]
  {
  }

  /** The look of a code: the prefix of the system, the short prefix of the type, and at least four digits, so for
      instance MBGA-R-0001 and MBGA-LPG-12345. */
  lemma CodesLookLikeThis(prefix: string, value: nat)
    ensures |FormatCode(prefix, value)| >= |"MBGA--0000"| + |Short(prefix)|
    ensures FormatCode(prefix, value)[..6 + |Short(prefix)|] == "MBGA-" + Short(prefix) + "-"
    ensures FormatCode("RETAIL", 1) == "MBGA-R-0001" && FormatCode("INDUSTRIAL", 27) == "MBGA-I-0027"
    ensures FormatCode("LPG", 12345) == "MBGA-LPG-12345"
    ensures prefix != "RETAIL" && prefix != "INDUSTRIAL" ==> Short(prefix) == prefix
  {
    assert Short("RETAIL") == "R" && Short("INDUSTRIAL") == "I" && Short("LPG") == "LPG";
    assert Print(1) == "1" && Zeros(3) == "000" && Zeros(2) == "00";
    PrintOneMore(27);
    assert Print(27) == "27";
    PrintOneMore(12);
    PrintOneMore(123);
    PrintOneMore(1234);
    PrintOneMore(12345);
    assert Print(12345) == "12345";
  }

  /** Read prefix and number back from a code. */
  function ParseCode(text: string): Option<(string, nat)> {
    var start, at := |CODE_PREFIX| + 1, AfterLast(text, '-');
    if at <= start || text[..start] != CODE_PREFIX + "-" || at == |text| || !AllDigits(text[at..]) then None
    else Some((text[start..at - 1], Read(text[at..])))
  }

  /** For every prefix and every number, also past 9999, the shortened prefix and the number can be read
      back from the code. */
  lemma CodeReadsBack(prefix: string, value: nat)
    ensures ParseCode(FormatCode(prefix, value)) == Some((Short(prefix), value))
  {
    var head, digits := CODE_PREFIX + "-" + Short(prefix), Padded(value, PAD_WIDTH);
    var text := FormatCode(prefix, value);
    assert text == head + ['-'] + digits;
    LastSeparator(head, '-', digits);
    ReadPadded(value, PAD_WIDTH);
    assert text[..|CODE_PREFIX| + 1] == CODE_PREFIX + "-";
    assert text[|CODE_PREFIX| + 1..|head|] == Short(prefix);
    assert text[|head| + 1..] == digits;
  }

  /** The prefix itself reads back exactly when `format_code` does not shorten it. */
  lemma PrefixReadsBackIff(prefix: string, value: nat)
    ensures ParseCode(FormatCode(prefix, value)) == Some((prefix, value)) <==> prefix !in {"RETAIL", "INDUSTRIAL"}
  {
    CodeReadsBack(prefix, value);
  }

  lemma SameCodeIff(p: string, m: nat, q: string, n: nat)
    ensures FormatCode(p, m) == FormatCode(q, n) <==> Short(p) == Short(q) && m == n
  {
    CodeReadsBack(p, m);
    CodeReadsBack(q, n);
  }

  // --- allocation -----------------------------------------------------------------------

  function Upper(text: string): string {
    seq(|text|, i requires 0 <= i < |text| => if 'a' <= text[i] <= 'z' then (text[i] as int - 32) as char else text[i])
  }

  /** The type's configured prefix, or its first letter when it has no definition. */
  function TypePrefix(definition: Option<string>, customerType: string): string {
    Upper(if definition.Some? then definition.value else customerType[..if customerType == "" then 0 else 1])
  }

  /** Prefixes are upper case, whoever typed them; a type without a definition uses its first letter. */
  lemma TypePrefixesLookLikeThis(definition: string, customerType: string)
    ensures TypePrefix(Some("Lpg1"), customerType) == "LPG1"
    ensures TypePrefix(None, "retail") == "R" && TypePrefix(None, "") == ""
    ensures |TypePrefix(Some(definition), customerType)| == |definition|
    ensures forall i :: 0 <= i < |definition| ==>
      && !('a' <= TypePrefix(Some(definition), customerType)[i] <= 'z')
      && (!('a' <= definition[i] <= 'z') ==> TypePrefix(Some(definition), customerType)[i] == definition[i])
  {
  }

  type Counters = map<string, nat>

  function SequenceKey(prefix: string): string {
    CODE_PREFIX + "-" + prefix
  }

  function NextValue(counters: Counters, prefix: string): nat {
    if SequenceKey(prefix) in counters then counters[SequenceKey(prefix)] else 1
  }

  function Advance(counters: Counters, prefix: string): Counters {
    counters[SequenceKey(prefix) := NextValue(counters, prefix) + 1]
  }

  class CustomerCodeAllocator {
    var counters: Counters

    constructor ()
      ensures counters == map[]
    {
      counters := map[];
    }

    /** The counter row of a prefix, created at one when it is the first. */
    method LockedSequence(prefix: string) returns (value: nat)
      modifies this
      ensures value == NextValue(old(counters), prefix) && counters == old(counters)[SequenceKey(prefix) := value]
    {
      var key := SequenceKey(prefix);
      if key !in counters {
        counters := counters[key := 1];
      }
      value := counters[key];
    }

    method Allocate(definition: Option<string>, customerType: string) returns (code: string)
      modifies this
      ensures var prefix := TypePrefix(definition, customerType);
              counters == Advance(old(counters), prefix) && code == FormatCode(prefix, NextValue(old(counters), prefix))
    {
      var prefix := TypePrefix(definition, customerType);
      var value := LockedSequence(prefix);
      counters := counters[SequenceKey(prefix) := value + 1];
      code := FormatCode(prefix, value);
    }
  }

  /** The counters after allocating for these prefixes in turn. */
  function CountersAfter(prefixes: seq<string>): Counters {
    if prefixes == [] then map[] else Advance(CountersAfter(prefixes[..|prefixes| - 1]), prefixes[|prefixes| - 1])
  }

  /** The code handed out at step `i`. */
  function CodeAt(prefixes: seq<string>, i: nat): string
    requires i < |prefixes|
  {
    FormatCode(prefixes[i], NextValue(CountersAfter(prefixes[..i]), prefixes[i]))
  }

  function Occurrences(prefixes: seq<string>, prefix: string): nat {
    multiset(prefixes)[prefix]
  }

  lemma {:induction false} CounterCounts(prefixes: seq<string>, prefix: string)
    ensures NextValue(CountersAfter(prefixes), prefix) == 1 + Occurrences(prefixes, prefix)
  {
    if prefixes != [] {
      var n := |prefixes| - 1;
      assert prefixes == prefixes[..n] + [prefixes[n]];
      CounterCounts(prefixes[..n], prefix);
      assert SequenceKey(prefixes[n]) == SequenceKey(prefix) <==> prefixes[n] == prefix by {
        assert SequenceKey(prefix)[5..] == prefix && SequenceKey(prefixes[n])[5..] == prefixes[n];
      }
    }
  }

  lemma LaterNumberIsHigher(prefixes: seq<string>, i: nat, j: nat)
    requires i < j < |prefixes| && prefixes[i] == prefixes[j]
    ensures Occurrences(prefixes[..i], prefixes[i]) < Occurrences(prefixes[..j], prefixes[j])
  {
    assert prefixes[..j] == prefixes[..i] + [prefixes[i]] + prefixes[i + 1..j];
  }

  lemma {:induction false} FirstUse(prefixes: seq<string>, prefix: string) returns (i: nat)
    requires prefix in prefixes
    ensures i < |prefixes| && prefixes[i] == prefix && Occurrences(prefixes[..i], prefix) == 0
  {
    if prefixes[0] == prefix {
      i := 0;
    } else {
      assert prefixes == [prefixes[0]] + prefixes[1..];
      var k := FirstUse(prefixes[1..], prefix);
      i := k + 1;
      assert prefixes[..i] == [prefixes[0]] + prefixes[1..][..k];
    }
  }

  ghost predicate AllDistinct(prefixes: seq<string>) {
    forall i, j :: 0 <= i < j < |prefixes| ==> CodeAt(prefixes, i) != CodeAt(prefixes, j)
  }

  predicate UsesBoth(prefixes: seq<string>, long: string, short: string) {
    long in prefixes && short in prefixes
  }

  lemma ShortFormsMeet(p: string, q: string)
    requires Short(p) == Short(q) && p != q
    ensures {p, q} == {"RETAIL", "R"} || {p, q} == {"INDUSTRIAL", "I"}
  {
    assert "RETAIL"[..1] == "R" && "INDUSTRIAL"[..1] == "I";
  }

  lemma SharedShortFormCollides(prefixes: seq<string>, p: string, q: string)
    requires p in prefixes && q in prefixes && p != q && Short(p) == Short(q)
    ensures !AllDistinct(prefixes)
  {
    var i := FirstUse(prefixes, p);
    var j := FirstUse(prefixes, q);
    CounterCounts(prefixes[..i], p);
    CounterCounts(prefixes[..j], q);
    assert CodeAt(prefixes, i) == CodeAt(prefixes, j) by {
      SameCodeIff(p, 1, q, 1);
    }
    assert i != j;
    if i < j {
      assert CodeAt(prefixes, i) == CodeAt(prefixes, j);
    } else {
      assert CodeAt(prefixes, j) == CodeAt(prefixes, i);
    }
  }

  /** Over any sequence of allocations, of all types, the codes are pairwise distinct exactly when no run
      uses both a long prefix and the letter it is shortened to: their counters are separate, their codes
      are not. */
  lemma CodesAreDistinctIff(prefixes: seq<string>)
    ensures AllDistinct(prefixes) <==> !UsesBoth(prefixes, "RETAIL", "R") && !UsesBoth(prefixes, "INDUSTRIAL", "I")
  {
    if UsesBoth(prefixes, "RETAIL", "R") {
      SharedShortFormCollides(prefixes, "RETAIL", "R");
    } else if UsesBoth(prefixes, "INDUSTRIAL", "I") {
      SharedShortFormCollides(prefixes, "INDUSTRIAL", "I");
    } else {
      forall i, j | 0 <= i < j < |prefixes|
        ensures CodeAt(prefixes, i) != CodeAt(prefixes, j)
      {
        CounterCounts(prefixes[..i], prefixes[i]);
        CounterCounts(prefixes[..j], prefixes[j]);
        SameCodeIff(prefixes[i], NextValue(CountersAfter(prefixes[..i]), prefixes[i]), prefixes[j],
                    NextValue(CountersAfter(prefixes[..j]), prefixes[j]));
        if prefixes[i] == prefixes[j] {
          LaterNumberIsHigher(prefixes, i, j);
        } else if Short(prefixes[i]) == Short(prefixes[j]) {
          ShortFormsMeet(prefixes[i], prefixes[j]);
          assert prefixes[i] in {prefixes[i], prefixes[j]} && prefixes[j] in {prefixes[i], prefixes[j]};
        }
      }
    }
  }

  /** A configured prefix has at most eight letters or digits; a type without one uses its first letter. */
  predicate IsAdmissible(prefix: string) {
    |prefix| <= 8
  }

  lemma TypePrefixIsAdmissible(definition: Option<string>, customerType: string)
    requires definition.Some? ==> IsAdmissible(definition.value)
    ensures IsAdmissible(TypePrefix(definition, customerType))
  {
  }

  /** Of the admissible prefixes only RETAIL is shortened, so the codes of all types are pairwise distinct
      unless both RETAIL and R are in use, and every other prefix reads back from its codes. */
  lemma AdmissibleCodesAreDistinctIff(prefixes: seq<string>)
    requires forall p :: p in prefixes ==> IsAdmissible(p)
    ensures AllDistinct(prefixes) <==> !UsesBoth(prefixes, "RETAIL", "R")
    ensures forall p, value: nat :: p in prefixes && p != "RETAIL" ==>
        ParseCode(FormatCode(p, value)) == Some((p, value))
  {
    assert !IsAdmissible("INDUSTRIAL");
    CodesAreDistinctIff(prefixes);
    forall p, value: nat | p in prefixes && p != "RETAIL"
      ensures ParseCode(FormatCode(p, value)) == Some((p, value))
    {
      PrefixReadsBackIff(p, value);
    }
  }

  /** A customer type as `allocate` sees it: the prefix of its definition, if it has one, and its code. */
  datatype CustomerType = CustomerType(prefix: Option<string>, code: string)

  /** The prefixes used when codes are allocated for customers of these types in turn. */
  function PrefixesOf(types: seq<CustomerType>): (prefixes: seq<string>)
    ensures |prefixes| == |types|
  {
    seq(|types|, i requires 0 <= i < |types| => TypePrefix(types[i].prefix, types[i].code))
  }

  /** For all configured types, with or without a definition: two codes of a run of `Allocate` are the same
      exactly when the run serves both a type whose prefix is RETAIL and one whose prefix is R. */
  lemma AllocatedCodesAreDistinctIff(types: seq<CustomerType>)
    requires forall t :: t in types && t.prefix.Some? ==> IsAdmissible(t.prefix.value)
    ensures AllDistinct(PrefixesOf(types)) <==>
      !((exists t :: t in types && TypePrefix(t.prefix, t.code) == "RETAIL")
        && (exists t :: t in types && TypePrefix(t.prefix, t.code) == "R"))
  {
    var prefixes := PrefixesOf(types);
    forall p | p in prefixes
      ensures IsAdmissible(p)
    {
      var i :| 0 <= i < |prefixes| && prefixes[i] == p;
      assert types[i] in types;
      TypePrefixIsAdmissible(types[i].prefix, types[i].code);
    }
    AdmissibleCodesAreDistinctIff(prefixes);
    PrefixIsUsedIff(types, "RETAIL");
    PrefixIsUsedIff(types, "R");
  }

  lemma PrefixIsUsedIff(types: seq<CustomerType>, prefix: string)
    ensures prefix in PrefixesOf(types) <==> exists t :: t in types && TypePrefix(t.prefix, t.code) == prefix
  {
    if prefix in PrefixesOf(types) {
      var i :| 0 <= i < |types| && PrefixesOf(types)[i] == prefix;
      assert types[i] in types;
    }
    if t :| t in types && TypePrefix(t.prefix, t.code) == prefix {
      var i :| 0 <= i < |types| && types[i] == t;
      assert PrefixesOf(types)[i] == prefix;
    }
  }
}
