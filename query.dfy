/** How the swipe screen turns the active filters into the query parameters of
    `/api/movies` (the `URLSearchParams` built in `fetchMovie` and
    `prefetchNextMovie`), and a reader of those parameters that recovers the
    filters, so that the serialisation is shown to lose nothing it emits. */
module Query {
  import opened Common
  import opened Filters

  datatype Param = Param(key: string, value: string)

  const GenresKey := "genres"
  const RuntimeKey := "runtime"
  const YearFromKey := "year_from"
  const YearToKey := "year_to"
  const ProvidersKey := "providers"
  const WithoutIdsKey := "without_ids"

  function DigitChar(d: nat): (c: char)
    requires d < 10
  {
    "0123456789"[d]
  }

  function CharDigit(c: char): nat
  {
    if '0' <= c <= '9' then (c as int - '0' as int) as nat else 0
  }

  predicate IsDigit(c: char)
  {
    '0' <= c <= '9'
  }

  /** Decimal digits of `n`, most significant first, without leading zeros. */
  function NatToString(n: nat): (s: string)
    ensures |s| > 0 && forall i :: 0 <= i < |s| ==> IsDigit(s[i])
  {
    if n < 10 then [DigitChar(n)] else NatToString(n / 10) + [DigitChar(n % 10)]
  }

  /** `String(n)` for an integer `n`. */
  function IntToString(n: int): (s: string)
    ensures |s| > 0 && ',' !in s
  {
    if n < 0 then "-" + NatToString(-n) else NatToString(n)
  }

  function ParseDigits(s: string): nat
  {
    if s == [] then 0 else ParseDigits(s[..|s| - 1]) * 10 + CharDigit(s[|s| - 1])
  }

  function ParseInt(s: string): int
  {
    if |s| > 0 && s[0] == '-' then -(ParseDigits(s[1..]) as int) else ParseDigits(s)
  }

  lemma {:induction false} ParseNatToString(n: nat)
    ensures ParseDigits(NatToString(n)) == n
  {
    if n >= 10 {
      var s := NatToString(n);
      assert s[..|s| - 1] == NatToString(n / 10);
      ParseNatToString(n / 10);
    }
  }

  lemma ParseIntToString(n: int)
    ensures ParseInt(IntToString(n)) == n
  {
    if n < 0 {
      ParseNegative(n);
    } else {
      ParseNonNegative(n);
    }
  }

  lemma ParseNonNegative(n: int)
    requires n >= 0
    ensures ParseInt(IntToString(n)) == n
  {
    var m: nat := n;
    var d := NatToString(m);
    assert IsDigit(d[0]);
    ParseNatToString(m);
  }

  lemma ParseNegative(n: int)
    requires n < 0
    ensures ParseInt(IntToString(n)) == n
  {
    var m: nat := -n;
    var d := NatToString(m);
    var s := "-" + d;
    assert IntToString(n) == s;
    assert s[0] == '-' && s[1..] == d;
    ParseNatToString(m);
  }

  /** `xs.join(",")` of the decimal forms. */
  function JoinInts(xs: seq<int>): (s: string)
    ensures |xs| > 0 ==> |s| > 0
  {
    if xs == [] then ""
    else if |xs| == 1 then IntToString(xs[0])
    else IntToString(xs[0]) + "," + JoinInts(xs[1..])
  }

  /** The text before the first comma of `s`, and what follows that comma. */
  function SplitFirst(s: string): (string, Option<string>)
  {
    if s == [] then ("", None)
    else if s[0] == ',' then ("", Some(s[1..]))
    else
      var (head, rest) := SplitFirst(s[1..]);
      ([s[0]] + head, rest)
  }

  function SplitInts(s: string): seq<int>
    decreases |s|
  {
    var (head, rest) := SplitFirst(s);
    SplitFirstShorter(s);
    if rest.None? then [ParseInt(head)] else [ParseInt(head)] + SplitInts(rest.value)
  }

  lemma {:induction false} SplitFirstShorter(s: string)
    ensures SplitFirst(s).1.Some? ==> |SplitFirst(s).1.value| < |s|
  {
    if s != [] && s[0] != ',' {
      SplitFirstShorter(s[1..]);
    }
  }

  lemma {:induction false} SplitFirstOfJoin(a: string, b: string)
    requires ',' !in a
    ensures SplitFirst(a + "," + b) == (a, Some(b))
    ensures SplitFirst(a) == (a, None)
  {
    if a != [] {
      assert (a + "," + b)[1..] == a[1..] + "," + b;
      SplitFirstOfJoin(a[1..], b);
      assert [a[0]] + a[1..] == a;
    } else {
      assert a + "," + b == "," + b;
    }
  }

  /** Reading back a comma-joined list gives the list. */
  lemma {:induction false} SplitJoinInts(xs: seq<int>)
    requires |xs| > 0
    ensures SplitInts(JoinInts(xs)) == xs
  {
    ParseIntToString(xs[0]);
    if |xs| == 1 {
      SplitFirstOfJoin(IntToString(xs[0]), "");
    } else {
      SplitFirstOfJoin(IntToString(xs[0]), JoinInts(xs[1..]));
      SplitJoinInts(xs[1..]);
    }
  }

  /** JavaScript truthiness of an optional number: `null` and `0` are falsy. */
  predicate Truthy(o: Option<int>)
  {
    o.Some? && o.value != 0
  }

  function ListParam(key: string, xs: seq<int>): seq<Param>
  {
    if |xs| > 0 then [Param(key, JoinInts(xs))] else []
  }

  function NumberParam(key: string, o: Option<int>): seq<Param>
  {
    if Truthy(o) then [Param(key, IntToString(o.value))] else []
  }

  /** The parameters `fetchMovie` sends for the filters `f`, in order. */
  function QueryParams(f: FilterOptions): (ps: seq<Param>)
    ensures forall i :: 0 <= i < |ps| ==> |ps[i].value| > 0
    ensures |ps| == 0 <==> f.genres == [] && !Truthy(f.runtime) && !Truthy(f.yearFrom) && !Truthy(f.yearTo) && f.providers == []
  {
    ListParam(GenresKey, f.genres)
      + NumberParam(RuntimeKey, f.runtime)
      + NumberParam(YearFromKey, f.yearFrom)
      + NumberParam(YearToKey, f.yearTo)
      + ListParam(ProvidersKey, f.providers)
  }

  /** The `without_ids` parameter for the given exclusion list, when it is non-empty. */
  function ExclusionParam(ids: seq<int>): seq<Param>
  {
    if |ids| > 0 then [Param(WithoutIdsKey, JoinInts(ids))] else []
  }

  /** The parameters `prefetchNextMovie` sends: the filter parameters, then
      the ids of watched and shown movies, each once, when there are any. */
  function PrefetchParams(f: FilterOptions, watched: seq<int>, shown: seq<int>): (ps: seq<Param>)
  {
    QueryParams(f) + ExclusionParam(Dedup(watched + shown))
  }

  /** The prefetch request extends the fetch request by exactly one parameter
      when some movie is watched or shown, and that parameter lists every such
      id once, watched ids first. */
  lemma PrefetchExcludesSeen(f: FilterOptions, watched: seq<int>, shown: seq<int>)
    ensures var ps := PrefetchParams(f, watched, shown);
      && ps[..|QueryParams(f)|] == QueryParams(f)
      && (|watched + shown| == 0 ==> ps == QueryParams(f))
      && (|watched + shown| > 0 ==>
            |ps| == |QueryParams(f)| + 1 && ps[|ps| - 1].key == WithoutIdsKey &&
            SplitInts(ps[|ps| - 1].value) == Dedup(watched + shown) &&
            forall id :: id in SplitInts(ps[|ps| - 1].value) <==> id in watched || id in shown)
  {
    var excluded := Dedup(watched + shown);
    if |excluded| > 0 {
      SplitJoinInts(excluded);
    }
  }

  function Lookup(ps: seq<Param>, key: string): Option<string>
  {
    if ps == [] then None else if ps[0].key == key then Some(ps[0].value) else Lookup(ps[1..], key)
  }

  /** What the server reads back from the parameters. */
  function ParseFilters(ps: seq<Param>): FilterOptions
  {
    var genres := Lookup(ps, GenresKey);
    var runtime := Lookup(ps, RuntimeKey);
    var yearFrom := Lookup(ps, YearFromKey);
    var yearTo := Lookup(ps, YearToKey);
    var providers := Lookup(ps, ProvidersKey);
    FilterOptions(
      if genres.Some? then SplitInts(genres.value) else [],
      if runtime.Some? then Some(ParseInt(runtime.value)) else None,
      if yearFrom.Some? then Some(ParseInt(yearFrom.value)) else None,
      if yearTo.Some? then Some(ParseInt(yearTo.value)) else None,
      if providers.Some? then SplitInts(providers.value) else [])
  }

  /** A falsy number is sent as no constraint at all. */
  function DropFalsy(o: Option<int>): Option<int>
  {
    if Truthy(o) then o else None
  }

  lemma {:induction false} LookupAppend(a: seq<Param>, b: seq<Param>, key: string)
    ensures Lookup(a + b, key) == if Lookup(a, key).Some? then Lookup(a, key) else Lookup(b, key)
  {
    if a == [] {
      assert a + b == b;
    } else {
      var ab := a + b;
      assert ab[0] == a[0];
      assert ab[1..] == a[1..] + b;
      if a[0].key != key {
        LookupAppend(a[1..], b, key);
      }
    }
  }

  lemma KeysDistinct()
    ensures GenresKey != RuntimeKey && GenresKey != YearFromKey && GenresKey != YearToKey && GenresKey != ProvidersKey
    ensures RuntimeKey != YearFromKey && RuntimeKey != YearToKey && RuntimeKey != ProvidersKey
    ensures YearFromKey != YearToKey && YearFromKey != ProvidersKey && YearToKey != ProvidersKey
  {
    assert |GenresKey| == 6 && |RuntimeKey| == 7 && |YearFromKey| == 9 && |YearToKey| == 7 && |ProvidersKey| == 9;
    assert RuntimeKey[0] != YearToKey[0];
    assert YearFromKey[0] != ProvidersKey[0];
  }

  lemma LookupParam(key: string, value: string, k: string)
    ensures Lookup([Param(key, value)], k) == if k == key then Some(value) else None
  {
    if k != key {
      assert [Param(key, value)][1..] == [];
    }
  }

  /** At most one parameter, and it is under `key`: what one field contributes. */
  predicate OnlyUnder(ps: seq<Param>, key: string)
  {
    |ps| <= 1 && forall i :: 0 <= i < |ps| ==> ps[i].key == key
  }

  lemma LookupElsewhere(ps: seq<Param>, key: string, k: string)
    requires OnlyUnder(ps, key) && k != key
    ensures Lookup(ps, k) == None
  {
    if ps != [] {
      assert ps[1..] == [];
    }
  }

  /** Five single-field parameter lists under five distinct keys, joined:
      a key is found in its own field's list only. */
  lemma {:induction false} LookupJoined(ps: seq<seq<Param>>, keys: seq<string>, i: nat)
    requires |ps| == |keys| && i < |keys|
    requires forall j :: 0 <= j < |ps| ==> OnlyUnder(ps[j], keys[j])
    requires forall j :: 0 <= j < |keys| && j != i ==> keys[j] != keys[i]
    ensures Lookup(Concat(ps), keys[i]) == Lookup(ps[i], keys[i])
    decreases |ps|
  {
    LookupAppend(ps[0], Concat(ps[1..]), keys[i]);
    if i == 0 {
      if Lookup(ps[0], keys[0]).None? {
        LookupNone(ps[1..], keys[1..], keys[0]);
      }
    } else {
      LookupElsewhere(ps[0], keys[0], keys[i]);
      LookupJoined(ps[1..], keys[1..], i - 1);
    }
  }

  /** A key under which none of the lists holds a parameter is not found. */
  lemma {:induction false} LookupNone(ps: seq<seq<Param>>, keys: seq<string>, k: string)
    requires |ps| == |keys|
    requires forall j :: 0 <= j < |ps| ==> OnlyUnder(ps[j], keys[j])
    requires forall j :: 0 <= j < |keys| ==> keys[j] != k
    ensures Lookup(Concat(ps), k) == None
    decreases |ps|
  {
    if ps != [] {
      LookupAppend(ps[0], Concat(ps[1..]), k);
      LookupElsewhere(ps[0], keys[0], k);
      LookupNone(ps[1..], keys[1..], k);
    }
  }

  function Concat(ps: seq<seq<Param>>): seq<Param>
  {
    if ps == [] then [] else ps[0] + Concat(ps[1..])
  }

  /** The keys of the filter parameters, in the order they are sent. */
  const FilterKeys: seq<string> := [GenresKey, RuntimeKey, YearFromKey, YearToKey, ProvidersKey]

  /** The per-field parameter lists of `f`, in the order they are sent. */
  function FieldParams(f: FilterOptions): seq<seq<Param>>
  {
    [ListParam(GenresKey, f.genres), NumberParam(RuntimeKey, f.runtime), NumberParam(YearFromKey, f.yearFrom),
     NumberParam(YearToKey, f.yearTo), ListParam(ProvidersKey, f.providers)]
  }

  lemma ConcatCons(x: seq<Param>, rest: seq<seq<Param>>)
    ensures Concat([x] + rest) == x + Concat(rest)
  {
    assert ([x] + rest)[1..] == rest;
  }

  lemma FieldParamsJoin(f: FilterOptions)
    ensures Concat(FieldParams(f)) == QueryParams(f)
  {
    var ps := FieldParams(f);
    var t4: seq<seq<Param>> := [ps[4]];
    var t3 := [ps[3]] + t4;
    var t2 := [ps[2]] + t3;
    var t1 := [ps[1]] + t2;
    var t0 := [ps[0]] + t1;
    assert t0 == ps;
    ConcatCons(ps[4], []);
    assert Concat(t4) == ps[4];
    ConcatCons(ps[3], t4);
    ConcatCons(ps[2], t3);
    ConcatCons(ps[1], t2);
    ConcatCons(ps[0], t1);
    QueryParamsNested(f);
  }

  lemma QueryParamsNested(f: FilterOptions)
    ensures var ps := FieldParams(f); QueryParams(f) == ps[0] + (ps[1] + (ps[2] + (ps[3] + ps[4])))
  {
  }

  lemma FieldParamsKeyed(f: FilterOptions)
    ensures forall j :: 0 <= j < |FieldParams(f)| ==> OnlyUnder(FieldParams(f)[j], FilterKeys[j])
  {
  }

  lemma FilterKeysDistinct()
    ensures forall i, j :: 0 <= i < |FilterKeys| && 0 <= j < |FilterKeys| && i != j ==> FilterKeys[i] != FilterKeys[j]
  {
    KeysDistinct();
  }

  /** Each key is looked up in the one parameter its own field contributes. */
  lemma LookupQueryParams(f: FilterOptions, i: nat)
    requires i < |FilterKeys|
    ensures Lookup(QueryParams(f), FilterKeys[i]) == Lookup(FieldParams(f)[i], FilterKeys[i])
  {
    FieldParamsJoin(f);
    FieldParamsKeyed(f);
    FilterKeysDistinct();
    LookupJoined(FieldParams(f), FilterKeys, i);
  }

  lemma ReadList(key: string, xs: seq<int>)
    ensures var v := Lookup(ListParam(key, xs), key); (if v.Some? then SplitInts(v.value) else []) == xs
  {
    if |xs| > 0 {
      LookupParam(key, JoinInts(xs), key);
      SplitJoinInts(xs);
    }
  }

  lemma ReadNumber(key: string, o: Option<int>)
    ensures var v := Lookup(NumberParam(key, o), key); (if v.Some? then Some(ParseInt(v.value)) else None) == DropFalsy(o)
  {
    if Truthy(o) {
      LookupParam(key, IntToString(o.value), key);
      ParseIntToString(o.value);
    }
  }

  /** Round trip: the parameters read back as the filters, except that a
      runtime or year of 0 is not sent and so reads back as no constraint. */
  lemma ParseQueryParams(f: FilterOptions)
    ensures ParseFilters(QueryParams(f)) ==
              FilterOptions(f.genres, DropFalsy(f.runtime), DropFalsy(f.yearFrom), DropFalsy(f.yearTo), f.providers)
  {
    KeysDistinct();
    LookupQueryParams(f, 0);
    LookupQueryParams(f, 1);
    LookupQueryParams(f, 2);
    LookupQueryParams(f, 3);
    LookupQueryParams(f, 4);
    ReadList(GenresKey, f.genres);
    ReadNumber(RuntimeKey, f.runtime);
    ReadNumber(YearFromKey, f.yearFrom);
    ReadNumber(YearToKey, f.yearTo);
    ReadList(ProvidersKey, f.providers);
  }
}
