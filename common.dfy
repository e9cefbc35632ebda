/** Shared value helpers used by several pages: optional values, the text
    operations the pages apply to search queries and currency codes, numeric
    form fields, the "populated or raw" record references and money amounts
    read as numbers with 0 for anything unreadable. */
module Common {

  datatype Option<T> = None | Some(value: T)

  /** The outcome of a remote call that a page awaits: success, or a failure
      that may carry the server's message (empty when the server gave none). */
  datatype ApiOutcome = Succeeded | FailedWith(message: string)

  /** The message a page shows for a failed call: the server's message when
      it has one, otherwise the page's own fallback text. */
  function FailureMessage(outcome: ApiOutcome, fallback: string): (m: string)
    requires outcome.FailedWith?
    ensures outcome.message != "" ==> m == outcome.message
    ensures outcome.message == "" ==> m == fallback
  {
    if outcome.message != "" then outcome.message else fallback
  }

  // ---------------------------------------------------------------------------
  // Text

  predicate IsUpperAscii(c: char) { 'A' <= c <= 'Z' }
  predicate IsLowerAscii(c: char) { 'a' <= c <= 'z' }

  function LowerChar(c: char): char
  {
    if IsUpperAscii(c) then (c as int - 'A' as int + 'a' as int) as char else c
  }

  function UpperChar(c: char): char
  {
    if IsLowerAscii(c) then (c as int - 'a' as int + 'A' as int) as char else c
  }

  /** `toLowerCase`, restricted to ASCII letters. */
  function Lower(s: string): (r: string)
    ensures |r| == |s|
    ensures forall i :: 0 <= i < |s| ==> r[i] == LowerChar(s[i])
    ensures forall i :: 0 <= i < |r| ==> !IsUpperAscii(r[i])
  {
    seq(|s|, i requires 0 <= i < |s| => LowerChar(s[i]))
  }

  /** `toUpperCase`, restricted to ASCII letters. */
  function Upper(s: string): (r: string)
    ensures |r| == |s|
    ensures forall i :: 0 <= i < |s| ==> r[i] == UpperChar(s[i])
    ensures forall i :: 0 <= i < |r| ==> !IsLowerAscii(r[i])
  {
    seq(|s|, i requires 0 <= i < |s| => UpperChar(s[i]))
  }

  /** The characters `trim` strips: the WhiteSpace and LineTerminator code
      points of ECMA-262 (sections 12.2 and 12.3), that is tab, vertical tab,
      form feed, the byte order mark, every space separator (Unicode category
      Zs) and the four line terminators. */
  predicate IsSpace(c: char)
  {
    c == '\t' || c == '\U{000B}' || c == '\U{000C}' || c == '\U{FEFF}'
    || c == '\n' || c == '\r' || c == '\U{2028}' || c == '\U{2029}'
    || c == ' ' || c == '\U{00A0}' || c == '\U{1680}' || '\U{2000}' <= c <= '\U{200A}'
    || c == '\U{202F}' || c == '\U{205F}' || c == '\U{3000}'
  }

  function TrimStart(s: string): (r: string)
    ensures |r| <= |s| && r == s[|s| - |r|..]
    ensures r == [] || !IsSpace(r[0])
    ensures forall i :: 0 <= i < |s| - |r| ==> IsSpace(s[i])
  {
    if s != [] && IsSpace(s[0]) then TrimStart(s[1..]) else s
  }

  function TrimEnd(s: string): (r: string)
    ensures |r| <= |s| && r == s[..|r|]
    ensures r == [] || !IsSpace(r[|r| - 1])
    ensures forall i :: |r| <= i < |s| ==> IsSpace(s[i])
  {
    if s != [] && IsSpace(s[|s| - 1]) then TrimEnd(s[..|s| - 1]) else s
  }

  /** Drops leading and trailing white space and nothing else: the result is
      the piece of the input after its leading white space, everything after
      it is white space, and it neither starts nor ends with white space. */
  function Trim(s: string): (r: string)
    ensures r == [] || (!IsSpace(r[0]) && !IsSpace(r[|r| - 1]))
    ensures |r| <= |s|
    ensures var a := |s| - |TrimStart(s)|;
            a + |r| <= |s| && r == s[a..a + |r|]
            && (forall i :: 0 <= i < a ==> IsSpace(s[i]))
            && (forall i :: a + |r| <= i < |s| ==> IsSpace(s[i]))
  {
    var t := TrimStart(s);
    var r := TrimEnd(t);
    PieceOfSuffix(s, t, r);
    r
  }

  /** A prefix `r` of a suffix `t` of `s`, followed in `t` by white space only,
      is the slice of `s` at the suffix's offset, followed in `s` by white space only. */
  lemma PieceOfSuffix(s: string, t: string, r: string)
    requires |t| <= |s| && t == s[|s| - |t|..]
    requires |r| <= |t| && r == t[..|r|]
    requires forall i :: |r| <= i < |t| ==> IsSpace(t[i])
    ensures var a := |s| - |t|;
            a + |r| <= |s| && r == s[a..a + |r|]
            && (forall i :: a + |r| <= i < |s| ==> IsSpace(s[i]))
  {
    var a := |s| - |t|;
    forall i | a + |r| <= i < |s|
      ensures IsSpace(s[i])
    {
      assert s[i] == t[i - a];
    }
  }

  lemma {:induction false} TrimOfTrimmed(s: string)
    requires s == [] || (!IsSpace(s[0]) && !IsSpace(s[|s| - 1]))
    ensures Trim(s) == s
  {
    assert TrimStart(s) == s;
    assert TrimEnd(s) == s;
  }

  lemma UpperKeepsSpaces(s: string)
    ensures forall i :: 0 <= i < |s| ==> (IsSpace(Upper(s)[i]) <==> IsSpace(s[i]))
  {
  }

  /** `q` occurs in `s` as a contiguous piece (a substring test). */
  predicate Contains(s: string, q: string)
  {
    q <= s || (s != [] && Contains(s[1..], q))
  }

  lemma {:induction false} ContainsEmpty(s: string)
    ensures Contains(s, [])
  {
  }

  lemma {:induction false} ContainsAt(s: string, q: string, k: nat)
    requires k + |q| <= |s| && s[k..k + |q|] == q
    ensures Contains(s, q)
  {
    if k == 0 {
      assert q <= s;
    } else {
      assert s[1..][k - 1..k - 1 + |q|] == q;
      ContainsAt(s[1..], q, k - 1);
    }
  }

  lemma {:induction false} ContainsWitness(s: string, q: string) returns (k: nat)
    requires Contains(s, q)
    ensures k + |q| <= |s| && s[k..k + |q|] == q
  {
    if q <= s {
      k := 0;
    } else {
      var k' := ContainsWitness(s[1..], q);
      k := k' + 1;
      assert s[k..k + |q|] == s[1..][k'..k' + |q|];
    }
  }

  /** A query longer than the text never matches. */
  lemma {:induction false} ContainsNeedsRoom(s: string, q: string)
    requires |q| > |s|
    ensures !Contains(s, q)
  {
    if Contains(s, q) {
      var k := ContainsWitness(s, q);
    }
  }

  /** The first element whose key is `id` (the `find` of an array by id),
      or nothing when no element has that key. */
  function FindFirst<T>(s: seq<T>, key: T -> string, id: string): (r: Option<T>)
    ensures r.Some? ==> r.value in s && key(r.value) == id
    ensures r.Some? ==> exists i :: 0 <= i < |s| && s[i] == r.value
                                   && forall j :: 0 <= j < i ==> key(s[j]) != id
    ensures r.None? ==> forall i :: 0 <= i < |s| ==> key(s[i]) != id
  {
    if s == [] then None
    else if key(s[0]) == id then Some(s[0])
    else FindFirst(s[1..], key, id)
  }

  /** `q` sits in `s` at offset `k`. */
  predicate OccursAt(s: string, q: string, k: int)
  {
    0 <= k && k + |q| <= |s| && s[k..k + |q|] == q
  }

  lemma ContainsOccurs(s: string, q: string)
    ensures Contains(s, q) <==> exists k :: OccursAt(s, q, k)
  {
    if Contains(s, q) {
      var k := ContainsWitness(s, q);
      assert OccursAt(s, q, k);
    }
    forall k | OccursAt(s, q, k)
      ensures Contains(s, q)
    {
      ContainsAt(s, q, k);
    }
  }

  /** The case-insensitive "contains" every list page uses for its search
      box: the lower-cased query occurs somewhere in the lower-cased text;
      the empty query matches everything. */
  predicate MatchesQuery(text: string, query: string): (b: bool)
    ensures b <==> exists k :: OccursAt(Lower(text), Lower(query), k)
    ensures query == "" ==> b
    ensures b ==> |query| <= |text|
  {
    ContainsOccurs(Lower(text), Lower(query));
    assert query == "" ==> OccursAt(Lower(text), Lower(query), 0);
    Contains(Lower(text), Lower(query))
  }

  // ---------------------------------------------------------------------------
  // Currency codes

  const DEFAULT_CURRENCY: string := "USD"

  /** The currency a form submits: the typed code trimmed and upper-cased, or USD for an empty field.
      Only the empty field falls back to USD; a field of white space alone
      is sent as the empty code. */
  function SubmittedCurrency(c: string): (r: string)
    ensures c == "" ==> r == DEFAULT_CURRENCY
    ensures c != "" ==> r == Upper(Trim(c)) && |r| <= |c|
    ensures forall i :: 0 <= i < |r| ==> !IsLowerAscii(r[i])
    ensures r == [] || (!IsSpace(r[0]) && !IsSpace(r[|r| - 1]))
  {
    if c == "" then DEFAULT_CURRENCY
    else
      var t := Trim(c);
      UpperKeepsSpaces(t);
      Upper(t)
  }

  /** A code typed in capitals without surrounding white space is sent as typed. */
  lemma SubmittedCurrencyKeepsCleanCode(c: string)
    requires c != ""
    requires forall i :: 0 <= i < |c| ==> !IsLowerAscii(c[i]) && !IsSpace(c[i])
    ensures SubmittedCurrency(c) == c
  {
    TrimOfTrimmed(c);
    assert Upper(c) == c;
  }

  /** Submitting an already submitted, non-empty code changes nothing. */
  lemma {:induction false} SubmittedCurrencyIdempotent(c: string)
    requires SubmittedCurrency(c) != ""
    ensures SubmittedCurrency(SubmittedCurrency(c)) == SubmittedCurrency(c)
  {
    var r := SubmittedCurrency(c);
    if c == "" {
      assert r == "USD";
      assert Trim(r) == r by { TrimOfTrimmed(r); }
      assert Upper(r) == r;
    } else {
      TrimOfTrimmed(r);
      assert Upper(r) == r;
    }
  }

  /** A no-break space counts as white space: trimming removes it on both sides. */
  lemma NoBreakSpaceTrimmed()
    ensures Trim("\U{00A0}USD\U{00A0}") == "USD"
  {
    LeadingNoBreakSpaceDropped();
    TrailingNoBreakSpaceDropped();
  }

  lemma LeadingNoBreakSpaceDropped()
    ensures TrimStart("\U{00A0}USD\U{00A0}") == "USD\U{00A0}"
  {
    assert IsSpace('\U{00A0}') && "\U{00A0}USD\U{00A0}"[1..] == "USD\U{00A0}";
    assert TrimStart("USD\U{00A0}") == "USD\U{00A0}" by { assert !IsSpace('U'); }
  }

  lemma TrailingNoBreakSpaceDropped()
    ensures TrimEnd("USD\U{00A0}") == "USD"
  {
    assert IsSpace('\U{00A0}') && "USD\U{00A0}"[..3] == "USD";
    assert TrimEnd("USD") == "USD" by { assert !IsSpace('D'); }
  }

  /** A code typed with a trailing no-break space is sent without it. */
  lemma NoBreakSpaceSubmitted()
    ensures SubmittedCurrency("usd\U{00A0}") == "USD"
  {
    LowerCodeTrimmed();
    LowerCodeUpperCased();
  }

  lemma LowerCodeUpperCased()
    ensures Upper("usd") == "USD"
  {
    assert UpperChar('u') == 'U' && UpperChar('s') == 'S' && UpperChar('d') == 'D';
  }

  lemma LowerCodeTrimmed()
    ensures Trim("usd\U{00A0}") == "usd"
  {
    assert TrimStart("usd\U{00A0}") == "usd\U{00A0}" by { assert !IsSpace('u'); }
    assert IsSpace('\U{00A0}') && "usd\U{00A0}"[..3] == "usd";
    assert TrimEnd("usd") == "usd" by { assert !IsSpace('d'); }
  }

  /** The currency a page copies from a stored record: its code upper-cased, or USD when it has none. */
  function LoadedCurrency(c: string): (r: string)
    ensures c == "" ==> r == DEFAULT_CURRENCY
    ensures c != "" ==> r == Upper(c) && |r| == |c|
    ensures forall i :: 0 <= i < |r| ==> !IsLowerAscii(r[i])
  {
    Upper(if c == "" then DEFAULT_CURRENCY else c)
  }

  // ---------------------------------------------------------------------------
  // Numbers read from form fields and records

  /** A numeric text field read as a number: the empty field, a
      field that reads as a finite number, or one that does not (NaN). */
  datatype NumField = Blank | Num(v: real) | Invalid

  /** A stored amount read as a number: a missing or non-numeric value counts as 0. */
  function AmountOr0(a: Option<real>): (r: real)
    ensures a.Some? ==> r == a.value
    ensures a.None? ==> r == 0.0
  {
    if a.Some? then a.value else 0.0
  }

  function Max0(x: real): (r: real)
    ensures r >= 0.0 && r >= x
    ensures r == x || r == 0.0
  {
    if x > 0.0 then x else 0.0
  }

  // ---------------------------------------------------------------------------
  // References to other records

  /** A reference field of a record as the API returns it: absent, a raw
      identifier, or the referenced record populated in place. */
  datatype Ref = Absent | RawId(id: string) | Populated(oid: string, name: string)

  /** The identifier a page extracts from a reference: the populated record's id, the raw id, or "". */
  function RefId(r: Ref): (id: string)
    ensures r.Absent? ==> id == ""
    ensures r.RawId? ==> id == r.id
    ensures r.Populated? ==> id == r.oid
  {
    match r
    case Absent => ""
    case RawId(s) => s
    case Populated(s, _) => s
  }

  /** The name behind a reference; only a populated reference has one. */
  function RefName(r: Ref): (n: string)
    ensures r.Populated? ==> n == r.name
    ensures !r.Populated? ==> n == ""
  {
    if r.Populated? then r.name else ""
  }

  // ---------------------------------------------------------------------------
  // Sequences

  /** The elements that satisfy `p`, in their order. */
  function Filter<T>(s: seq<T>, p: T -> bool): (r: seq<T>)
    ensures |r| <= |s|
    ensures forall i :: 0 <= i < |r| ==> r[i] in s && p(r[i])
    ensures forall i :: 0 <= i < |s| && p(s[i]) ==> s[i] in r
  {
    if s == [] then []
    else if p(s[0]) then [s[0]] + Filter(s[1..], p)
    else Filter(s[1..], p)
  }

  lemma {:induction false} FilterAppend<T>(a: seq<T>, b: seq<T>, p: T -> bool)
    ensures Filter(a + b, p) == Filter(a, p) + Filter(b, p)
  {
    if a == [] {
      assert a + b == b;
    } else {
      assert (a + b)[1..] == a[1..] + b;
      FilterAppend(a[1..], b, p);
    }
  }

  /** Filtering by a predicate and by its negation splits the sequence:
      every element lands in exactly one part, as often as it occurs. */
  lemma {:induction false} FilterPartition<T>(s: seq<T>, p: T -> bool, q: T -> bool)
    requires forall i :: 0 <= i < |s| ==> q(s[i]) == !p(s[i])
    ensures multiset(Filter(s, p)) + multiset(Filter(s, q)) == multiset(s)
    ensures |Filter(s, p)| + |Filter(s, q)| == |s|
  {
    FilterSplitsMultiset(s, p, q);
    assert |multiset(Filter(s, p)) + multiset(Filter(s, q))| == |multiset(s)|;
  }

  lemma {:induction false} FilterSplitsMultiset<T>(s: seq<T>, p: T -> bool, q: T -> bool)
    requires forall i :: 0 <= i < |s| ==> q(s[i]) == !p(s[i])
    ensures multiset(Filter(s, p)) + multiset(Filter(s, q)) == multiset(s)
  {
    if s != [] {
      FilterSplitsMultiset(s[1..], p, q);
      assert s == [s[0]] + s[1..];
    }
  }

  /** A filter that keeps everything returns its input. */
  lemma {:induction false} FilterAll<T>(s: seq<T>, p: T -> bool)
    requires forall i :: 0 <= i < |s| ==> p(s[i])
    ensures Filter(s, p) == s
  {
    if s != [] {
      FilterAll(s[1..], p);
    }
  }

  // ---------------------------------------------------------------------------
  // Calendar days: day 0 is 1970-01-01, a Thursday

  const MINUTES_PER_DAY: int := 1440

  /** The weekday of a day: 0 is Sunday, 1 Monday, ..., 6 Saturday. */
  function Weekday(day: int): (w: int)
    ensures 0 <= w < 7
  {
    (day + 4) % 7
  }
}
