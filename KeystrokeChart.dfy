/**
  The data reshaping of components/KeystrokeChart.tsx: per-key timing tables
  (the user's average, the most recent session and every historical session)
  become one chart point per lower-case letter key, in alphabetical order,
  together with the names of the historical series.

  `ChartDataOf` states the result as a value; `TransformChart` computes it the
  way the component does, with the outer `map` over the keys and the inner
  `forEach` over the historical sessions as loops.
*/
module KeystrokeChart {
  import opened Wrappers

  /** `Record<string, number>`: a key -> milliseconds table. */
  type Record = map<string, real>

  /** The chart's `data` prop when it is not null. */
  datatype BiometricData = BiometricData(recent: Record, average: Record, historical: seq<Record>)

  /**
    One chart point: its `key`, the `avg` and `recent` fields, and the
    field `session_i` as `sessions[i]` (see SessionKey). None is `null`.
  */
  datatype Point = Point(key: string, avg: Option<real>, recent: Option<real>, sessions: seq<Option<real>>)

  /** The memoised `{ transformed, generatedSessionKeys }`. */
  datatype ChartData = ChartData(transformed: seq<Point>, generatedSessionKeys: seq<string>)

  // ---------------------------------------------------------------------
  // String order: Array.prototype.sort without a comparator compares
  // strings code unit by code unit; a proper prefix comes first.

  predicate Less(a: string, b: string)
    decreases |a|
  {
    if a == [] then b != []
    else b != [] && (a[0] < b[0] || (a[0] == b[0] && Less(a[1..], b[1..])))
  }

  lemma {:induction false} LessIrreflexive(a: string)
    ensures !Less(a, a)
    decreases |a|
  {
    if a != [] {
      LessIrreflexive(a[1..]);
    }
  }

  lemma {:induction false} LessTransitive(a: string, b: string, c: string)
    requires Less(a, b) && Less(b, c)
    ensures Less(a, c)
    decreases |a|
  {
    if a != [] && a[0] == b[0] == c[0] {
      LessTransitive(a[1..], b[1..], c[1..]);
    }
  }

  lemma LessAsymmetric(a: string, b: string)
    ensures !(Less(a, b) && Less(b, a))
  {
    LessIrreflexive(a);
    if Less(a, b) && Less(b, a) {
      LessTransitive(a, b, a);
    }
  }

  predicate StrictlyAscending(s: seq<string>) {
    forall i, j :: 0 <= i < j < |s| ==> Less(s[i], s[j])
  }

  /** A strictly ascending sequence of strings is the only one with its elements. */
  lemma {:induction false} AscendingUnique(a: seq<string>, b: seq<string>)
    requires StrictlyAscending(a) && StrictlyAscending(b)
    requires forall k :: k in a <==> k in b
    ensures a == b
    decreases |a|
  {
    if a == [] {
      DistinctLength(b, {});
    } else {
      assert a[0] in b;
      assert b[0] in a;
      var i :| 0 <= i < |a| && a[i] == b[0];
      var j :| 0 <= j < |b| && b[j] == a[0];
      assert i == 0 || Less(a[0], b[0]);
      assert j == 0 || Less(b[0], a[0]);
      LessAsymmetric(a[0], b[0]);
      assert a[0] == b[0];
      forall k
        ensures k in a[1..] <==> k in b[1..]
      {
        if k in a[1..] {
          var m :| 1 <= m < |a| && a[m] == k;
          assert Less(a[0], k);
          LessIrreflexive(k);
          assert k in b;
        }
        if k in b[1..] {
          var m :| 1 <= m < |b| && b[m] == k;
          assert Less(b[0], k);
          LessIrreflexive(k);
          assert k in a;
        }
      }
      AscendingUnique(a[1..], b[1..]);
      assert a == [a[0]] + a[1..] && b == [b[0]] + b[1..];
    }
  }

  // ---------------------------------------------------------------------
  // Selecting and sorting the keys

  /** `Object.keys` of every historical session, flattened. */
  function HistoricalKeys(historical: seq<Record>): (ks: set<string>)
    ensures forall k :: k in ks <==> exists i :: 0 <= i < |historical| && k in historical[i]
    decreases |historical|
  {
    if historical == [] then {}
    else
      var rest := HistoricalKeys(historical[1..]);
      assert forall k :: k in rest <==> exists i :: 1 <= i < |historical| && k in historical[i] by {
        forall k | k in rest ensures exists i :: 1 <= i < |historical| && k in historical[i] {
          var i :| 0 <= i < |historical[1..]| && k in historical[1..][i];
          assert k in historical[i + 1];
        }
      }
      historical[0].Keys + rest
  }

  /** `allKeysSet`: every key of `average`, of `recent` and of any historical session. */
  function AllKeys(d: BiometricData): (r: set<string>)
    ensures forall k :: k in r <==>
      k in d.average || k in d.recent || exists i :: 0 <= i < |d.historical| && k in d.historical[i]
  {
    d.average.Keys + d.recent.Keys + HistoricalKeys(d.historical)
  }

  /** `k.length === 1 && /[a-z]/.test(k)`: a single lower-case ASCII letter. */
  predicate IsLetterKey(k: string) {
    |k| == 1 && 'a' <= k[0] <= 'z'
  }

  /** The keys that pass the filter; there are at most 26 of them, one per letter. */
  function LetterKeys(d: BiometricData): (r: set<string>)
    ensures forall k :: k in r ==> k in AllKeys(d) && IsLetterKey(k)
    ensures |r| <= 26
  {
    var r := set k | k in AllKeys(d) && IsLetterKey(k);
    DistinctLength(LettersFrom(r, 'a'), r);
    r
  }

  /**
    The letter keys of `keys` whose letter is `c` or later, in alphabetical
    order. The filtered keys are single letters, so sorting them is walking
    the alphabet; AscendingUnique shows that no other order can come out of
    a sort.
  */
  function LettersFrom(keys: set<string>, c: char): (r: seq<string>)
    requires 'a' <= c <= '{'
    ensures forall k :: k in r <==> k in keys && IsLetterKey(k) && c <= k[0]
    ensures StrictlyAscending(r)
    ensures |r| <= '{' as int - c as int
    decreases '{' as int - c as int
  {
    if c == '{' then []
    else
      var rest := LettersFrom(keys, (c as int + 1) as char);
      var here := if [c] in keys then [[c]] else [];
      assert forall k :: k in rest ==> Less([c], k) by {
        forall k | k in rest ensures Less([c], k) {
          assert k == [k[0]];
        }
      }
      forall k | k in keys && IsLetterKey(k) && c <= k[0]
        ensures k in here + rest
      {
        assert k == [k[0]];
        assert k[0] == c || (c as int + 1) as char <= k[0];
      }
      here + rest
  }

  /** `sortedKeys`: the letter keys of the data, each once, in ascending order. */
  function SortedKeys(d: BiometricData): (r: seq<string>)
    ensures forall k :: k in r <==> k in AllKeys(d) && IsLetterKey(k)
    ensures StrictlyAscending(r)
  {
    LettersFrom(LetterKeys(d), 'a')
  }

  // ---------------------------------------------------------------------
  // The chart points and the series names

  /** `table[k] || null`: the value when present and non-zero, otherwise null. */
  function OrNull(table: Record, k: string): (r: Option<real>)
    ensures r != Some(0.0)
    ensures r.Some? ==> k in table && r.value == table[k]
    ensures k in table && table[k] != 0.0 ==> r.Some?
  {
    if k in table && table[k] != 0.0 then Some(table[k]) else None
  }

  /** The point the component builds for key `k`. */
  function PointFor(d: BiometricData, k: string): (p: Point)
    ensures p.key == k
    ensures |p.sessions| == |d.historical|
  {
    Point(k, OrNull(d.average, k), OrNull(d.recent, k),
          seq(|d.historical|, i requires 0 <= i < |d.historical| => OrNull(d.historical[i], k)))
  }

  /** The points for `keys`, in their order. */
  function PointsFor(d: BiometricData, keys: seq<string>): (ps: seq<Point>)
    ensures |ps| == |keys|
  {
    seq(|keys|, i requires 0 <= i < |keys| => PointFor(d, keys[i]))
  }

  /** The decimal digits of `n`, as a template literal prints it. */
  function NatToString(n: nat): (s: string)
    ensures |s| >= 1
    ensures forall i :: 0 <= i < |s| ==> '0' <= s[i] <= '9'
    decreases n
  {
    if n < 10 then [DigitChar(n)] else NatToString(n / 10) + [DigitChar(n % 10)]
  }

  function DigitChar(n: nat): (c: char)
    requires n < 10
    ensures '0' <= c <= '9'
  {
    (('0' as int) + n) as char
  }

  /** Reads a string of decimal digits back as a number. */
  function ParseNat(s: string): nat
    decreases |s|
  {
    if s == [] then 0
    else
      var c := s[|s| - 1];
      ParseNat(s[..|s| - 1]) * 10 + (if '0' <= c <= '9' then c as int - '0' as int else 0)
  }

  lemma {:induction false} ParseNatToString(n: nat)
    ensures ParseNat(NatToString(n)) == n
    decreases n
  {
    if n >= 10 {
      ParseNatToString(n / 10);
      var s := NatToString(n);
      assert s[..|s| - 1] == NatToString(n / 10);
    }
  }

  /** `session_${index}`. */
  function SessionKey(i: nat): (s: string)
    ensures |s| > 8 && s[..8] == "session_"
    ensures ParseNat(s[8..]) == i
  {
    ParseNatToString(i);
    assert ("session_" + NatToString(i))[8..] == NatToString(i);
    "session_" + NatToString(i)
  }

  /** Different sessions get different series names. */
  lemma SessionKeysDistinct(i: nat, j: nat)
    requires i != j
    ensures SessionKey(i) != SessionKey(j)
  {
  }

  /** `session_0`, ..., `session_{n-1}`. */
  function SessionKeys(n: nat): (r: seq<string>)
    ensures |r| == n
    ensures forall i, j :: 0 <= i < j < n ==> r[i] != r[j]
  {
    assert forall i, j :: 0 <= i < j < n ==> SessionKey(i) != SessionKey(j) by {
      forall i, j | 0 <= i < j < n
        ensures SessionKey(i) != SessionKey(j)
      {
        SessionKeysDistinct(i, j);
      }
    }
    seq(n, i requires 0 <= i < n => SessionKey(i))
  }

  /** One more session adds its name at the end. */
  lemma SessionKeysSnoc(n: nat)
    ensures SessionKeys(n + 1) == SessionKeys(n) + [SessionKey(n)]
  {
    assert SessionKeys(n + 1)[..n] == SessionKeys(n);
  }

  /**
    The memoised chart data. The source returns `[]` for null data, whose
    `transformed` the component never reads (it tests `!data` first); it is
    the empty chart here.
  */
  function ChartDataOf(data: Option<BiometricData>): (c: ChartData)
    ensures data.None? ==> c.transformed == [] && c.generatedSessionKeys == []
    ensures data.Some? ==> |c.transformed| == |SortedKeys(data.value)| == |LetterKeys(data.value)|
    ensures data.Some? ==> forall i :: 0 <= i < |c.transformed| ==>
      c.transformed[i] == PointFor(data.value, SortedKeys(data.value)[i])
  {
    match data
    case None => ChartData([], [])
    case Some(d) =>
      var keys := SortedKeys(d);
      DistinctLength(keys, LetterKeys(d));
      ChartData(PointsFor(d, keys), if |keys| > 0 then SessionKeys(|d.historical|) else [])
  }

  /** A strictly ascending sequence has as many elements as the set it lists. */
  lemma {:induction false} DistinctLength(s: seq<string>, elems: set<string>)
    requires StrictlyAscending(s)
    requires forall k :: k in s <==> k in elems
    ensures |s| == |elems|
    decreases |s|
  {
    if s != [] {
      var rest := elems - {s[0]};
      forall k
        ensures k in s[1..] <==> k in rest
      {
        if k in s[1..] {
          var m :| 1 <= m < |s| && s[m] == k;
          assert Less(s[0], k);
          LessIrreflexive(k);
        }
        if k in rest {
          var m :| 0 <= m < |s| && s[m] == k;
          assert m != 0;
        }
      }
      DistinctLength(s[1..], rest);
    } else {
      assert forall k :: k !in elems;
    }
  }

  /** The keys of the chart, in order. */
  function KeysOf(points: seq<Point>): seq<string> {
    seq(|points|, i requires 0 <= i < |points| => points[i].key)
  }

  /** Null data gives an empty chart. */
  lemma NullGivesEmpty()
    ensures ChartDataOf(None).transformed == []
    ensures ChartDataOf(None).generatedSessionKeys == []
  {
  }

  /**
    The point keys are exactly the distinct single-letter keys found in
    `average`, `recent` or any historical session, in strictly ascending order.
  */
  lemma ChartKeys(d: BiometricData)
    ensures var keys := KeysOf(ChartDataOf(Some(d)).transformed);
      && (forall k :: k in keys <==>
            IsLetterKey(k) && (k in d.average || k in d.recent ||
                               exists i :: 0 <= i < |d.historical| && k in d.historical[i]))
      && StrictlyAscending(keys)
  {
    var keys := KeysOf(ChartDataOf(Some(d)).transformed);
    assert keys == SortedKeys(d);
  }

  /**
    Each point carries its key, `avg` and `recent` are the tables' values when
    present and non-zero (null otherwise), and `session_i` follows the same
    rule on the i-th historical session.
  */
  lemma ChartPoints(d: BiometricData, i: nat)
    requires i < |ChartDataOf(Some(d)).transformed|
    ensures var p := ChartDataOf(Some(d)).transformed[i];
      && IsLetterKey(p.key)
      && (p.avg.Some? <==> p.key in d.average && d.average[p.key] != 0.0)
      && (p.avg.Some? ==> p.avg.value == d.average[p.key])
      && (p.recent.Some? <==> p.key in d.recent && d.recent[p.key] != 0.0)
      && (p.recent.Some? ==> p.recent.value == d.recent[p.key])
      && |p.sessions| == |d.historical|
      && (forall j :: 0 <= j < |d.historical| ==>
            && (p.sessions[j].Some? <==> p.key in d.historical[j] && d.historical[j][p.key] != 0.0)
            && (p.sessions[j].Some? ==> p.sessions[j].value == d.historical[j][p.key]))
  {
    assert SortedKeys(d)[i] in SortedKeys(d);
  }

  /**
    The series names are `session_0` ... `session_{n-1}`, all different, when
    at least one key survives the filter, and there are none otherwise.
  */
  lemma ChartSeriesNames(d: BiometricData)
    ensures var c := ChartDataOf(Some(d));
      && (c.transformed != [] ==>
            && |c.generatedSessionKeys| == |d.historical|
            && forall i :: 0 <= i < |d.historical| ==> c.generatedSessionKeys[i] == SessionKey(i))
      && (c.transformed == [] ==> c.generatedSessionKeys == [])
      && (forall i, j :: 0 <= i < j < |c.generatedSessionKeys| ==>
            c.generatedSessionKeys[i] != c.generatedSessionKeys[j])
  {
    var c := ChartDataOf(Some(d));
    forall i, j | 0 <= i < j < |c.generatedSessionKeys|
      ensures c.generatedSessionKeys[i] != c.generatedSessionKeys[j]
    {
      SessionKeysDistinct(i, j);
    }
  }

  /** The component shows "Waiting for data..." instead of a chart. */
  predicate ShowsPlaceholder(data: Option<BiometricData>) {
    data.None? || ChartDataOf(data).transformed == []
  }

  /** The placeholder shows exactly when there is no data or no letter key in it. */
  lemma PlaceholderWhenNoLetters(data: Option<BiometricData>)
    ensures ShowsPlaceholder(data) <==>
      data.None? || forall k :: k in AllKeys(data.value) ==> !IsLetterKey(k)
  {
    if data.Some? {
      var d := data.value;
      if ChartDataOf(data).transformed == [] {
        forall k | k in AllKeys(d) ensures !IsLetterKey(k) {
          assert k !in SortedKeys(d);
        }
      } else {
        assert SortedKeys(d)[0] in SortedKeys(d);
      }
    }
  }

  /**
    The `forEach` over the historical sessions for one key: set
    `session_i` on the point, and push the series name while the key is the
    first sorted key.
  */
  method AddSessionFields(d: BiometricData, keyLetter: string, firstKey: string,
                          point0: Point, generated0: seq<string>)
    returns (point: Point, generated: seq<string>)
    requires point0.sessions == []
    ensures point == point0.(sessions := PointFor(d, keyLetter).sessions)
    ensures generated == if keyLetter == firstKey then generated0 + SessionKeys(|d.historical|) else generated0
  {
    point, generated := point0, generated0;
    var n := |d.historical|;
    ghost var target := PointFor(d, keyLetter).sessions;
    var index := 0;
    while index < n
      invariant 0 <= index <= n
      invariant point == point0.(sessions := point.sessions)
      invariant point.sessions == target[..index]
      invariant generated == if keyLetter == firstKey then generated0 + SessionKeys(index) else generated0
    {
      assert target[..index + 1] == target[..index] + [OrNull(d.historical[index], keyLetter)];
      var sKey := SessionKey(index);
      point := point.(sessions := point.sessions + [OrNull(d.historical[index], keyLetter)]);
      if keyLetter == firstKey {
        SessionKeysSnoc(index);
        generated := generated + [sKey];
      }
      index := index + 1;
    }
    assert target[..n] == target;
  }

  /**
    One iteration of the `map` over the sorted keys: the point for
    `keyLetter`, built field by field, and the series names, pushed only
    while `keyLetter` is the first key.
  */
  method TransformKey(d: BiometricData, keyLetter: string, firstKey: string, generated0: seq<string>)
    returns (point: Point, generated: seq<string>)
    ensures point == PointFor(d, keyLetter)
    ensures generated == if keyLetter == firstKey then generated0 + SessionKeys(|d.historical|) else generated0
  {
    point := Point(keyLetter, None, None, []);
    point := point.(avg := OrNull(d.average, keyLetter));
    point := point.(recent := OrNull(d.recent, keyLetter));
    point, generated := AddSessionFields(d, keyLetter, firstKey, point, generated0);
  }

  /** Only the first element of a strictly ascending sequence equals the first element. */
  lemma AscendingFirstOnce(s: seq<string>, i: nat)
    requires StrictlyAscending(s)
    requires 0 < i < |s|
    ensures s[i] != s[0]
  {
    assert Less(s[0], s[i]);
    LessIrreflexive(s[i]);
  }

  /**
    The `map` over the sorted keys: one point per key, in order, and the
    series names once, from the first key.
  */
  method MapKeys(d: BiometricData, keys: seq<string>) returns (transformed: seq<Point>, generated: seq<string>)
    requires forall i :: 0 < i < |keys| ==> keys[i] != keys[0]
    ensures transformed == PointsFor(d, keys)
    ensures generated == if keys == [] then [] else SessionKeys(|d.historical|)
  {
    generated, transformed := [], [];
    var i := 0;
    while i < |keys|
      invariant 0 <= i <= |keys|
      invariant |transformed| == i
      invariant forall m :: 0 <= m < i ==> transformed[m] == PointFor(d, keys[m])
      invariant generated == if i == 0 then [] else SessionKeys(|d.historical|)
    {
      var point;
      point, generated := TransformKey(d, keys[i], keys[0], generated);
      assert i == 0 ==> [] + SessionKeys(|d.historical|) == SessionKeys(|d.historical|);
      transformed := transformed + [point];
      i := i + 1;
    }
    assert transformed == PointsFor(d, keys);
  }

  /**
    The `useMemo` body as the component runs it: no data gives the empty
    chart, otherwise the sorted keys are mapped to their points.
  */
  method TransformChart(data: Option<BiometricData>) returns (c: ChartData)
    ensures c == ChartDataOf(data)
  {
    if data.None? {
      return ChartData([], []);
    }
    var d := data.value;
    var sortedKeys := SortedKeys(d);
    forall i | 0 < i < |sortedKeys|
      ensures sortedKeys[i] != sortedKeys[0]
    {
      AscendingFirstOnce(sortedKeys, i);
    }
    var transformed, generatedSessionKeys := MapKeys(d, sortedKeys);
    c := ChartData(transformed, generatedSessionKeys);
  }
}
