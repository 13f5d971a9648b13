/// The `LabJackT7` Python helper: selects fluxgate probes on a T7 with a
/// MUX80 multiplexer, names their x/y/z inputs, de-interleaves stream reads
/// into one column per input and keeps the frames of every read.
///
/// The `ljm` device calls, pandas and the file system are not part of this
/// model: a stream read is given as its start-time key and flat samples, and
/// a frame is the column labels with their sample lists.
module LabJackT7 {
  import opened Base

  /// `CHANNEL_NAMES`: the x, y and z inputs of probes CH1 to CH9, in that order.
  const ChannelTable: seq<Ain> := [
    72, 74, 76,
    73, 75, 77,
    78, 80, 82,
    79, 81, 83,
    96, 98, 100,
    99, 101, 103,
    102, 104, 106,
    107, 109, 110,
    108, 111, 113
  ]

  const NumProbes: int := 9

  /// `MAX_SAMPLE_RATE` of a T7, in samples per second over all inputs.
  const MaxSampleRate: real := 100000.0

  const Axes: string := "xyz"

  lemma ChannelTableShape()
    ensures |ChannelTable| == 3 * NumProbes
    ensures forall i, j :: 0 <= i < j < |ChannelTable| ==> ChannelTable[i] != ChannelTable[j]
  {
  }

  // ---------------------------------------------------------------------
  // Probe selection (pure)

  /// A Python slice bound: negative counts from the end, then clamped to [0, len].
  function SliceBound(i: int, len: nat): (b: nat)
    ensures b <= len
    ensures 0 <= i <= len ==> b == i
    ensures -(len as int) <= i < 0 ==> b == i + len
    ensures i < -(len as int) ==> b == 0
    ensures i > len ==> b == len
  {
    var j := if i < 0 then i + len else i;
    if j < 0 then 0 else if j > len then len else j
  }

  /// Python's `s[lo:hi]`.
  function Slice<T>(s: seq<T>, lo: int, hi: int): (r: seq<T>)
    ensures forall x :: x in r ==> x in s
  {
    var a, b := SliceBound(lo, |s|), SliceBound(hi, |s|);
    if a < b then s[a..b] else []
  }

  /// `CHANNEL_NAMES[(i-1)*3:i*3]`: the inputs selected by one `channel_list` entry.
  function ProbeNames(k: int): seq<Ain> {
    Slice(ChannelTable, (k - 1) * 3, k * 3)
  }

  /// `np.concatenate([... for i in channel_list]).tolist()`.
  function ChannelNamesOf(channelList: seq<int>): (names: seq<Ain>)
    ensures forall n :: n in names ==> n in ChannelTable
  {
    if channelList == [] then []
    else ChannelNamesOf(channelList[..|channelList| - 1]) + ProbeNames(channelList[|channelList| - 1])
  }

  /// Probes 1 to 9 select their own three inputs.
  lemma ProbeNamesOfProbe(k: int)
    requires 1 <= k <= NumProbes
    ensures ProbeNames(k) == ChannelTable[3 * (k - 1)..3 * k]
  {
  }

  /// Entries -8 to -1 are negative slice bounds and select probe k + 9
  /// (-1 reads CH8); 0 and entries past the table select nothing.
  lemma ProbeNamesOutOfRange(k: int)
    ensures -NumProbes < k < 0 ==> ProbeNames(k) == ProbeNames(k + NumProbes)
    ensures (k <= -NumProbes || k == 0 || k > NumProbes) ==> ProbeNames(k) == []
  {
  }

  predicate AllProbes(channelList: seq<int>) {
    forall k :: 0 <= k < |channelList| ==> 1 <= channelList[k] <= NumProbes
  }

  /// For probes 1 to 9, `channel_names` has three inputs per listed probe.
  lemma {:induction false} ChannelNamesOfProbes(channelList: seq<int>)
    requires AllProbes(channelList)
    ensures |ChannelNamesOf(channelList)| == 3 * |channelList|
  {
    if channelList != [] {
      var front := channelList[..|channelList| - 1];
      ChannelNamesOfProbes(front);
      ProbeNamesOfProbe(channelList[|channelList| - 1]);
    }
  }

  /// The first index of `x` in `s`, as `list.index`.
  function IndexOf<T(==)>(s: seq<T>, x: T): (i: nat)
    requires x in s
    ensures i < |s| && s[i] == x
    ensures forall j :: 0 <= j < i ==> s[j] != x
  {
    if s[0] == x then 0 else 1 + IndexOf(s[1..], x)
  }

  /// `f'CH{i//3+1}{"xyz"[i%3]}'` for the input at position `i` of
  /// `CHANNEL_NAMES`; the probe number is a single digit, 1 to 9.
  function ChannelId(i: nat): (id: string)
    requires i < |ChannelTable|
    ensures |id| == 4
  {
    ['C', 'H', DigitChar(i / 3 + 1), Axes[i % 3]]
  }

  /// The digit above is what `str()` gives the probe number.
  lemma ChannelIdIsFormatted(i: nat)
    requires i < |ChannelTable|
    ensures ChannelId(i) == "CH" + NatToString(i / 3 + 1) + [Axes[i % 3]]
  {
    DigitRoundTrip(i / 3 + 1);
  }

  /// `channel_ids`: each selected input's id, position for position.
  function ChannelIdsOf(names: seq<Ain>): (ids: seq<string>)
    requires forall n :: n in names ==> n in ChannelTable
    ensures |ids| == |names|
  {
    seq(|names|, j requires 0 <= j < |names| => ChannelId(IndexOf(ChannelTable, names[j])))
  }

  lemma ChannelIdsOfOne(n: Ain)
    requires n in ChannelTable
    ensures ChannelIdsOf([n]) == [ChannelId(IndexOf(ChannelTable, n))]
  {
  }

  lemma ChannelIdsOfAppend(a: seq<Ain>, b: seq<Ain>)
    requires forall n :: n in a ==> n in ChannelTable
    requires forall n :: n in b ==> n in ChannelTable
    ensures ChannelIdsOf(a + b) == ChannelIdsOf(a) + ChannelIdsOf(b)
  {
    var l, r := ChannelIdsOf(a + b), ChannelIdsOf(a) + ChannelIdsOf(b);
    forall j | 0 <= j < |l|
      ensures l[j] == r[j]
    {
      if j < |a| {
        assert (a + b)[j] == a[j];
      } else {
        assert (a + b)[j] == b[j - |a|];
      }
    }
  }

  /// The id of probe k's input on an axis: "CH", the probe digit, the axis letter.
  function ProbeId(k: nat, axis: char): string
    requires k < 10
  {
    ['C', 'H', DigitChar(k), axis]
  }

  /// `list.index` finds every input of the table at its own position.
  lemma IndexInTable(i: nat)
    requires i < |ChannelTable|
    ensures IndexOf(ChannelTable, ChannelTable[i]) == i
  {
    ChannelTableShape();
    var j := IndexOf(ChannelTable, ChannelTable[i]);
    assert j <= i;
  }

  /// Input `a` of probe `k` sits at position 3 * (k - 1) + a of the table.
  lemma ProbePosition(k: int, a: nat)
    requires 1 <= k <= NumProbes && a < 3
    ensures (3 * (k - 1) + a) / 3 + 1 == k && (3 * (k - 1) + a) % 3 == a
  {
  }

  lemma ChannelIdOfPosition(k: int, a: nat)
    requires 1 <= k <= NumProbes && a < 3
    ensures ChannelId(3 * (k - 1) + a) == ProbeId(k, Axes[a])
  {
    ProbePosition(k, a);
  }

  lemma IdOfTableEntry(i: nat)
    requires i < |ChannelTable|
    ensures ChannelIdsOf([ChannelTable[i]]) == [ChannelId(i)]
  {
    IndexInTable(i);
  }

  lemma SliceOfThree<T>(s: seq<T>, b: nat)
    requires b + 3 <= |s|
    ensures s[b..b + 3] == [s[b]] + [s[b + 1]] + [s[b + 2]]
  {
  }

  /// Three consecutive inputs of the table are named by their positions.
  lemma IdsOfThree(b: nat)
    requires b + 3 <= |ChannelTable|
    ensures ChannelIdsOf(ChannelTable[b..b + 3]) == [ChannelId(b), ChannelId(b + 1), ChannelId(b + 2)]
  {
    var t0, t1, t2 := [ChannelTable[b]], [ChannelTable[b + 1]], [ChannelTable[b + 2]];
    SliceOfThree(ChannelTable, b);
    ChannelIdsOfAppend(t0 + t1, t2);
    ChannelIdsOfAppend(t0, t1);
    IdOfTableEntry(b);
    IdOfTableEntry(b + 1);
    IdOfTableEntry(b + 2);
  }

  /// A probe's three inputs are named by its number and x, y, z.
  lemma ProbeIds(k: int)
    requires 1 <= k <= NumProbes
    ensures ChannelIdsOf(ProbeNames(k)) == [ProbeId(k, 'x'), ProbeId(k, 'y'), ProbeId(k, 'z')]
  {
    ProbeNamesOfProbe(k);
    IdsOfThree(3 * (k - 1));
    ChannelIdOfPosition(k, 0);
    ChannelIdOfPosition(k, 1);
    ChannelIdOfPosition(k, 2);
  }

  // ---------------------------------------------------------------------
  // Reading the probes back from a CSV header (pure)

  predicate StrictlySorted(s: seq<int>) {
    forall i, j :: 0 <= i < j < |s| ==> s[i] < s[j]
  }

  /// Adds `x` to a strictly sorted list unless it is already there.
  function Insert(s: seq<int>, x: int): seq<int>
  {
    if s == [] then [x]
    else if x < s[0] then [x] + s
    else if x == s[0] then s
    else [s[0]] + Insert(s[1..], x)
  }

  /// `np.unique(...).tolist()` on integers.
  function Unique(xs: seq<int>): seq<int> {
    if xs == [] then [] else Insert(Unique(xs[..|xs| - 1]), xs[|xs| - 1])
  }

  lemma {:induction false} InsertKeepsSorted(s: seq<int>, x: int)
    requires StrictlySorted(s)
    ensures StrictlySorted(Insert(s, x))
    ensures forall v :: v in Insert(s, x) <==> v in s || v == x
  {
    if s != [] && x > s[0] {
      InsertKeepsSorted(s[1..], x);
      var r := Insert(s, x);
      assert r == [s[0]] + Insert(s[1..], x);
      forall i, j | 0 <= i < j < |r|
        ensures r[i] < r[j]
      {
        if i == 0 {
          assert r[j] in Insert(s[1..], x);
          assert r[j] in s[1..] || r[j] == x;
        }
      }
    }
  }

  /// np.unique's promise: sorted, without repeats, and the same values.
  lemma {:induction false} UniqueIsSortedSet(xs: seq<int>)
    ensures StrictlySorted(Unique(xs))
    ensures forall v :: v in Unique(xs) <==> v in xs
  {
    if xs != [] {
      var front := xs[..|xs| - 1];
      UniqueIsSortedSet(front);
      InsertKeepsSorted(Unique(front), xs[|xs| - 1]);
      assert xs == front + [xs[|xs| - 1]];
    }
  }

  lemma {:induction false} InsertAbove(s: seq<int>, x: int)
    requires forall v :: v in s ==> v < x
    ensures Insert(s, x) == s + [x]
  {
    if s != [] {
      assert s[0] in s;
      assert forall v :: v in s[1..] ==> v in s;
      InsertAbove(s[1..], x);
      assert s == [s[0]] + s[1..];
    }
  }

  lemma {:induction false} InsertPresentLast(s: seq<int>, x: int)
    requires StrictlySorted(s) && s != [] && s[|s| - 1] == x
    ensures Insert(s, x) == s
  {
    if |s| > 1 {
      assert s[0] < x;
      InsertPresentLast(s[1..], x);
      assert s == [s[0]] + s[1..];
    }
  }

  /// `[int(element[2]) for element in line]`: None where Python raises
  /// (a field shorter than three characters, or no digit at position 2).
  function ProbeDigits(fields: seq<string>): (r: Option<seq<int>>)
    ensures r.Some? ==> |r.value| == |fields|
  {
    if fields == [] then Some([])
    else
      var last := fields[|fields| - 1];
      match ProbeDigits(fields[..|fields| - 1])
      case None => None
      case Some(front) =>
        if |last| < 3 || !IsDigit(last[2]) then None
        else Some(front + [DigitValue(last[2])])
  }

  /// `from_csv`'s channel recovery from the fields after `dt (s)` in the
  /// column header of a multi-stream file.
  function RecoverChannels(fields: seq<string>): (r: Option<seq<int>>)
    ensures r.Some? ==> StrictlySorted(r.value)
  {
    match ProbeDigits(fields)
    case None => None
    case Some(digits) => UniqueIsSortedSet(digits); Some(Unique(digits))
  }

  /// Each entry of `channelList` three times over, in order.
  function Triples(channelList: seq<int>): (t: seq<int>)
    ensures forall v :: v in t ==> v in channelList
  {
    if channelList == [] then []
    else
      var k := channelList[|channelList| - 1];
      Triples(channelList[..|channelList| - 1]) + [k, k, k]
  }

  lemma {:induction false} ProbeDigitsAppend(a: seq<string>, b: seq<string>, da: seq<int>, db: seq<int>)
    requires ProbeDigits(a) == Some(da) && ProbeDigits(b) == Some(db)
    ensures ProbeDigits(a + b) == Some(da + db)
  {
    if b == [] {
      assert db == [];
      assert a + b == a && da + db == da;
    } else {
      var n := |b| - 1;
      match ProbeDigits(b[..n])
      case None =>
      case Some(dfront) =>
        ProbeDigitsAppend(a, b[..n], da, dfront);
        assert (a + b)[..|a + b| - 1] == a + b[..n];
        assert (a + b)[|a + b| - 1] == b[n];
        assert db == dfront + [DigitValue(b[n][2])];
        assert da + db == (da + dfront) + [DigitValue(b[n][2])];
    }
  }

  lemma ProbeDigitsSnoc(fields: seq<string>, digits: seq<int>, f: string)
    requires ProbeDigits(fields) == Some(digits) && |f| >= 3 && IsDigit(f[2])
    ensures ProbeDigits(fields + [f]) == Some(digits + [DigitValue(f[2])])
  {
    assert (fields + [f])[..|fields|] == fields;
  }

  /// The three ids of probe k carry k as their digit.
  lemma ProbeDigitsOfProbeIds(k: nat)
    requires 1 <= k <= NumProbes
    ensures ProbeDigits([ProbeId(k, 'x'), ProbeId(k, 'y'), ProbeId(k, 'z')]) == Some([k, k, k])
  {
    DigitRoundTrip(k);
    var x, y, z := ProbeId(k, 'x'), ProbeId(k, 'y'), ProbeId(k, 'z');
    var none: seq<string>, noDigits: seq<int> := [], [];
    assert ProbeDigits(none) == Some(noDigits);
    ProbeDigitsSnoc(none, noDigits, x);
    assert none + [x] == [x] && noDigits + [k] == [k];
    ProbeDigitsSnoc([x], [k], y);
    assert [x] + [y] == [x, y] && [k] + [k] == [k, k];
    ProbeDigitsSnoc([x, y], [k, k], z);
    assert [x, y] + [z] == [x, y, z] && [k, k] + [k] == [k, k, k];
  }

  /// Every listed probe gives three ids whose digit is the probe number.
  lemma {:induction false} ProbeDigitsOfIds(channelList: seq<int>)
    requires AllProbes(channelList)
    ensures ProbeDigits(ChannelIdsOf(ChannelNamesOf(channelList))) == Some(Triples(channelList))
  {
    if channelList != [] {
      var n := |channelList| - 1;
      var front, k := channelList[..n], channelList[n];
      assert AllProbes(front) by {
        forall m | 0 <= m < |front|
          ensures 1 <= front[m] <= NumProbes
        {
          assert front[m] == channelList[m];
        }
      }
      ProbeDigitsOfIds(front);
      var namesFront := ChannelNamesOf(front);
      assert ChannelNamesOf(channelList) == namesFront + ProbeNames(k);
      ChannelIdsOfAppend(namesFront, ProbeNames(k));
      ProbeIds(k);
      ProbeDigitsOfProbeIds(k);
      ProbeDigitsAppend(ChannelIdsOf(namesFront), ChannelIdsOf(ProbeNames(k)), Triples(front), [k, k, k]);
    }
  }

  lemma UniqueAppend(xs: seq<int>, x: int)
    ensures Unique(xs + [x]) == Insert(Unique(xs), x)
  {
    assert (xs + [x])[..|xs|] == xs;
  }

  lemma {:induction false} UniqueOfTriples(channelList: seq<int>)
    requires StrictlySorted(channelList)
    ensures Unique(Triples(channelList)) == channelList
  {
    if channelList != [] {
      var n := |channelList| - 1;
      var front, k := channelList[..n], channelList[n];
      UniqueOfTriples(front);
      var tf := Triples(front);
      assert Triples(channelList) == tf + [k, k, k];
      forall v | v in front
        ensures v < k
      {
        var i :| 0 <= i < n && front[i] == v;
        assert channelList[i] == v;
      }
      InsertAbove(front, k);
      assert channelList == front + [k];
      UniqueAppendThree(tf, k);
      InsertPresentLast(channelList, k);
    }
  }

  lemma UniqueAppendThree(xs: seq<int>, x: int)
    ensures Unique(xs + [x, x, x]) == Insert(Insert(Insert(Unique(xs), x), x), x)
  {
    UniqueAppend(xs, x);
    UniqueAppend(xs + [x], x);
    assert xs + [x] + [x] == xs + [x, x];
    UniqueAppend(xs + [x, x], x);
    assert xs + [x, x] + [x] == xs + [x, x, x];
  }

  /// Recovery inverts naming: the ids written for probes 1 to 9, listed in
  /// increasing order, give back that list.
  lemma RecoverChannelsInvertsIds(channelList: seq<int>)
    requires AllProbes(channelList) && StrictlySorted(channelList)
    ensures RecoverChannels(ChannelIdsOf(ChannelNamesOf(channelList))) == Some(channelList)
  {
    ProbeDigitsOfIds(channelList);
    UniqueOfTriples(channelList);
  }

  // ---------------------------------------------------------------------
  // De-interleaving a read (pure)

  /// Python's `data[i::n]`.
  function Column(data: seq<real>, i: nat, n: nat): seq<real>
    requires n > 0
    decreases |data| - i
  {
    if i >= |data| then [] else [data[i]] + Column(data, i + n, n)
  }

  /// Row r of column i is sample i + r * n, for every sample of the read ...
  lemma {:induction false} ColumnAt(data: seq<real>, i: nat, n: nat, r: nat)
    requires n > 0 && i + r * n < |data|
    ensures r < |Column(data, i, n)| && Column(data, i, n)[r] == data[i + r * n]
    decreases r
  {
    if r > 0 {
      assert i + n + (r - 1) * n == i + r * n;
      ColumnAt(data, i + n, n, r - 1);
    }
  }

  /// ... and a column holds nothing else.
  lemma {:induction false} ColumnOnlyAt(data: seq<real>, i: nat, n: nat, r: nat)
    requires n > 0 && r < |Column(data, i, n)|
    ensures i + r * n < |data| && Column(data, i, n)[r] == data[i + r * n]
    decreases r
  {
    if r > 0 {
      ColumnOnlyAt(data, i + n, n, r - 1);
      assert i + n + (r - 1) * n == i + r * n;
    }
  }

  /// Every sample of a read lands in column p % n, at row p / n ...
  lemma EveryElementInItsColumn(data: seq<real>, n: nat, p: nat)
    requires n > 0 && p < |data|
    ensures p / n < |Column(data, p % n, n)|
    ensures Column(data, p % n, n)[p / n] == data[p]
  {
    ColumnAt(data, p % n, n, p / n);
  }

  lemma {:induction false} MulMonotone(a: nat, b: nat, n: nat)
    requires a <= b
    ensures a * n <= b * n
    decreases b - a
  {
    if a < b {
      MulMonotone(a, b - 1, n);
      assert (b - 1) * n + n == b * n;
    }
  }

  /// ... and in no other place: the column and row that hold sample p are
  /// p % n and p / n.
  lemma ColumnPlaceUnique(n: nat, i: nat, r: nat, p: nat)
    requires i < n && i + r * n == p
    ensures i == p % n && r == p / n
  {
    var q, m := p / n, p % n;
    assert p == m + q * n;
    if r > q {
      MulMonotone(q + 1, r, n);
    } else if r < q {
      MulMonotone(r + 1, q, n);
    }
  }

  /// A Python dict: values in insertion order, each key once, a repeated
  /// key overwriting the value but keeping its place.
  datatype Dict<K, V> = Dict(keys: seq<K>, values: seq<V>)

  function Put<K(==), V>(d: Dict<K, V>, k: K, v: V): (r: Dict<K, V>)
    requires |d.keys| == |d.values|
    ensures |r.keys| == |r.values|
  {
    if k in d.keys then Dict(d.keys, d.values[IndexOf(d.keys, k) := v])
    else Dict(d.keys + [k], d.values + [v])
  }

  /// A frame: the id of every column, with its samples.
  datatype Frame = Frame(labels: seq<string>, columns: seq<seq<real>>)

  /// `{ch: data[i::n] for i, ch in enumerate(channel_names)}` after its first `k` inputs.
  function ColumnDict(data: seq<real>, names: seq<Ain>, k: nat): (d: Dict<Ain, seq<real>>)
    requires |names| > 0 && k <= |names|
    ensures |d.keys| == |d.values|
    ensures forall n :: n in d.keys ==> n in names
  {
    if k == 0 then Dict([], [])
    else Put(ColumnDict(data, names, k - 1), names[k - 1], Column(data, k - 1, |names|))
  }

  /// The frame of one read: the columns of the dict above, renamed from
  /// input names to ids.
  function DeInterleave(data: seq<real>, names: seq<Ain>): Frame
    requires |names| > 0
    requires forall n :: n in names ==> n in ChannelTable
  {
    var d := ColumnDict(data, names, |names|);
    Frame(ChannelIdsOf(d.keys), d.values)
  }

  predicate Distinct<T(==)>(s: seq<T>) {
    forall i, j :: 0 <= i < j < |s| ==> s[i] != s[j]
  }

  /// The columns `data[j::n]` of the first `k` inputs.
  function Columns(data: seq<real>, n: nat, k: nat): (cols: seq<seq<real>>)
    requires n > 0
    ensures |cols| == k
    ensures forall j :: 0 <= j < k ==> cols[j] == Column(data, j, n)
  {
    seq(k, j requires 0 <= j < k => Column(data, j, n))
  }

  /// With distinct inputs, column j of the frame is input j's samples
  /// `data[j::n]`, labelled with its id.
  lemma DeInterleaveColumns(data: seq<real>, names: seq<Ain>)
    requires |names| > 0 && Distinct(names)
    requires forall n :: n in names ==> n in ChannelTable
    ensures DeInterleave(data, names) == Frame(ChannelIdsOf(names), Columns(data, |names|, |names|))
  {
    ColumnDictOfDistinct(data, names, |names|);
    assert names[..|names|] == names;
  }

  lemma {:induction false} ColumnDictOfDistinct(data: seq<real>, names: seq<Ain>, k: nat)
    requires |names| > 0 && k <= |names| && Distinct(names)
    ensures ColumnDict(data, names, k) == Dict(names[..k], Columns(data, |names|, k))
  {
    if k > 0 {
      ColumnDictOfDistinct(data, names, k - 1);
      assert names[k - 1] !in names[..k - 1];
      assert names[..k] == names[..k - 1] + [names[k - 1]];
      assert Columns(data, |names|, k) == Columns(data, |names|, k - 1) + [Column(data, k - 1, |names|)];
    }
  }

  /// `all_data[str(start_date)] = data` over the reads, in order.
  function Collect(received: seq<(string, seq<real>)>): (d: Dict<string, seq<real>>)
    ensures |d.keys| == |d.values|
  {
    if received == [] then Dict([], [])
    else
      var last := received[|received| - 1];
      Put(Collect(received[..|received| - 1]), last.0, last.1)
  }

  /// `d[k] = v` on a dict: `k` keeps its place or is added last, its value
  /// becomes `v`, and every other entry stays where it was.
  lemma PutEntries<K, V>(d: Dict<K, V>, k: K, v: V)
    requires |d.keys| == |d.values| && Distinct(d.keys)
    ensures Distinct(Put(d, k, v).keys)
    ensures |d.keys| <= |Put(d, k, v).keys| <= |d.keys| + 1
    ensures forall x :: x in Put(d, k, v).keys <==> x in d.keys || x == k
    ensures forall j :: 0 <= j < |Put(d, k, v).keys| && Put(d, k, v).keys[j] == k ==> Put(d, k, v).values[j] == v
    ensures forall j :: 0 <= j < |Put(d, k, v).keys| && Put(d, k, v).keys[j] != k ==>
              j < |d.keys| && Put(d, k, v).keys[j] == d.keys[j] && Put(d, k, v).values[j] == d.values[j]
  {
    if k in d.keys {
      var i := IndexOf(d.keys, k);
      assert forall j :: 0 <= j < |d.keys| && d.keys[j] == k ==> j == i;
    } else {
      var r := Put(d, k, v);
      assert r.keys == d.keys + [k];
      forall x | x in r.keys
        ensures x in d.keys || x == k
      {
        var j :| 0 <= j < |r.keys| && r.keys[j] == x;
        if j < |d.keys| {
          assert d.keys[j] == x;
        }
      }
    }
  }

  /// Some read was made at start time `k`.
  ghost predicate ReadAt(received: seq<(string, seq<real>)>, k: string)
  {
    exists r :: 0 <= r < |received| && received[r].0 == k
  }

  /// The reads at time `k` are those before the last read, and the last.
  lemma ReadAtSnoc(received: seq<(string, seq<real>)>, k: string)
    requires received != []
    ensures ReadAt(received, k) <==> ReadAt(received[..|received| - 1], k) || received[|received| - 1].0 == k
  {
    var n := |received| - 1;
    var front := received[..n];
    if ReadAt(received, k) {
      var r :| 0 <= r < |received| && received[r].0 == k;
      if r < n {
        assert front[r].0 == k;
      }
    }
    if ReadAt(front, k) {
      var r :| 0 <= r < |front| && front[r].0 == k;
      assert received[r].0 == k;
    }
  }

  /// The keys of the stored reads: each start time once and no more keys
  /// than reads.
  lemma {:induction false} CollectDistinct(received: seq<(string, seq<real>)>)
    ensures |Collect(received).keys| == |Collect(received).values| <= |received|
    ensures Distinct(Collect(received).keys)
  {
    if received != [] {
      var n := |received| - 1;
      CollectDistinct(received[..n]);
      PutEntries(Collect(received[..n]), received[n].0, received[n].1);
    }
  }

  /// The keys of the stored reads: each start time once, no more keys than
  /// reads, and exactly the start times of the reads.
  lemma {:induction false} CollectKeys(received: seq<(string, seq<real>)>)
    ensures |Collect(received).keys| <= |received|
    ensures Distinct(Collect(received).keys)
    ensures forall k :: k in Collect(received).keys <==> ReadAt(received, k)
  {
    CollectDistinct(received);
    if received != [] {
      var n := |received| - 1;
      CollectKeys(received[..n]);
      PutEntries(Collect(received[..n]), received[n].0, received[n].1);
      forall k
        ensures k in Collect(received).keys <==> ReadAt(received, k)
      {
        ReadAtSnoc(received, k);
      }
    }
  }

  /// Each stored read is the last read made at its start time.
  lemma {:induction false} CollectKeepsLast(received: seq<(string, seq<real>)>)
    ensures forall j :: 0 <= j < |Collect(received).keys| ==> LastWithKey(received, Collect(received).keys[j], Collect(received).values[j])
  {
    if received != [] {
      var n := |received| - 1;
      var front, last := received[..n], received[n];
      CollectDistinct(front);
      CollectKeepsLast(front);
      var d0, d := Collect(front), Collect(received);
      PutEntries(d0, last.0, last.1);
      forall j | 0 <= j < |d.keys|
        ensures LastWithKey(received, d.keys[j], d.values[j])
      {
        if d.keys[j] == last.0 {
          assert received[n] == (d.keys[j], d.values[j]);
        } else {
          assert LastWithKey(front, d0.keys[j], d0.values[j]);
          var r :| 0 <= r < |front| && front[r] == (d0.keys[j], d0.values[j])
                   && forall s :: r < s < |front| ==> front[s].0 != d0.keys[j];
          assert received[r] == front[r];
          forall s | r < s < |received|
            ensures received[s].0 != d.keys[j]
          {
            if s < n {
              assert received[s] == front[s];
            }
          }
        }
      }
    }
  }

  /// The stored reads: one per distinct start time, never more than were
  /// made, each the last read made at that time.
  lemma CollectKeepsLastPerKey(received: seq<(string, seq<real>)>)
    ensures |Collect(received).keys| <= |received|
    ensures Distinct(Collect(received).keys)
    ensures forall k :: k in Collect(received).keys <==> ReadAt(received, k)
    ensures forall j :: 0 <= j < |Collect(received).keys| ==> LastWithKey(received, Collect(received).keys[j], Collect(received).values[j])
  {
    CollectKeys(received);
    CollectKeepsLast(received);
  }

  /// Read r was made at time `key` with samples `samples`, and no later read was made at that time.
  predicate LastWithKey(received: seq<(string, seq<real>)>, key: string, samples: seq<real>) {
    exists r :: 0 <= r < |received| && received[r] == (key, samples)
                && forall s :: r < s < |received| ==> received[s].0 != key
  }

  /// The frames `read` builds, one per stored read.
  function Frames(stored: seq<seq<real>>, names: seq<Ain>): (frames: seq<Frame>)
    requires |names| > 0
    requires forall n :: n in names ==> n in ChannelTable
    ensures |frames| == |stored|
  {
    seq(|stored|, j requires 0 <= j < |stored| => DeInterleave(stored[j], names))
  }

  /// `__init__`'s id loop: look each input up in the table and name it
  /// after its probe and axis.
  method ChannelIdsFor(names: seq<Ain>) returns (ids: seq<string>)
    requires forall n :: n in names ==> n in ChannelTable
    ensures ids == ChannelIdsOf(names)
  {
    ids := [];
    for j := 0 to |names|
      invariant ids == ChannelIdsOf(names[..j])
    {
      assert names[..j + 1] == names[..j] + [names[j]];
      ChannelIdsOfAppend(names[..j], [names[j]]);
      ChannelIdsOfOne(names[j]);
      var i := IndexOf(ChannelTable, names[j]);
      ids := ids + [ChannelId(i)];
    }
    assert names[..|names|] == names;
  }

  /// `read`'s acquisition loop: store every read under its start time.
  method CollectReads(received: seq<(string, seq<real>)>) returns (allData: Dict<string, seq<real>>)
    ensures allData == Collect(received)
  {
    allData := Dict([], []);
    for i := 0 to |received|
      invariant allData == Collect(received[..i])
    {
      assert received[..i + 1][..i] == received[..i];
      allData := Put(allData, received[i].0, received[i].1);
    }
    assert received[..|received|] == received;
  }

  /// `read`'s processing loop: one de-interleaved frame per stored read.
  method BuildFrames(stored: seq<seq<real>>, names: seq<Ain>) returns (frames: seq<Frame>)
    requires |names| > 0
    requires forall n :: n in names ==> n in ChannelTable
    ensures frames == Frames(stored, names)
  {
    frames := [];
    for j := 0 to |stored|
      invariant frames == Frames(stored[..j], names)
    {
      assert stored[..j + 1] == stored[..j] + [stored[j]];
      frames := frames + [DeInterleave(stored[j], names)];
    }
    assert stored[..|stored|] == stored;
  }

  // ---------------------------------------------------------------------
  // The object

  datatype InitError =
    | EmptyChannelList   // np.concatenate of no slices raises ValueError
    | NoChannels         // no input selected: max_scan_rate divides by zero

  datatype ReadError = ScanRateTooHigh(scanRate: real, maxScanRate: real)

  datatype CsvError =
    | NoDataSaved        // RuntimeError('No data saved')
    | StreamIndexOutOfRange(idx: int)

  /// What `to_csv` writes after its header.
  datatype CsvPlan = SingleStream(index: nat) | AllStreams

  class LabJackT7 {
    /// `channel_names`, as input numbers.
    var channelNames: seq<Ain>
    var channelIds: seq<string>
    var nAddresses: nat
    var maxScanRate: real
    var data: seq<Frame>
    var streamTimes: seq<string>
    /// Absent until the first `read`.
    var scanRate: Option<real>

    ghost predicate Valid()
      reads this
    {
      && nAddresses == |channelNames| > 0
      && (forall n :: n in channelNames ==> n in ChannelTable)
      && channelIds == ChannelIdsOf(channelNames)
      && maxScanRate == MaxSampleRate / (nAddresses as real)
      && |data| == |streamTimes|
      && (data != [] ==> scanRate.Some?)
    }

    /// `LabJackT7(channel_list)`, or the exception it raises.
    static method Open(channelList: seq<int>) returns (r: Result<LabJackT7, InitError>)
      ensures channelList == [] <==> r == Err(EmptyChannelList)
      ensures channelList != [] && ChannelNamesOf(channelList) == [] <==> r == Err(NoChannels)
      ensures r.Ok? ==> fresh(r.value) && r.value.Valid()
                        && r.value.channelNames == ChannelNamesOf(channelList)
                        && r.value.data == [] && r.value.streamTimes == []
    {
      if channelList == [] {
        return Err(EmptyChannelList);
      }
      if ChannelNamesOf(channelList) == [] {
        return Err(NoChannels);
      }
      var lj := new LabJackT7(channelList);
      return Ok(lj);
    }

    /// `__init__` for a list that selects at least one input.
    constructor (channelList: seq<int>)
      requires ChannelNamesOf(channelList) != []
      ensures Valid()
      ensures channelNames == ChannelNamesOf(channelList)
      ensures data == [] && streamTimes == [] && scanRate == None
    {
      var names := ChannelNamesOf(channelList);
      var ids := ChannelIdsFor(names);
      channelNames := names;
      channelIds := ids;
      nAddresses := |names|;
      maxScanRate := MaxSampleRate / (|names| as real);
      data := [];
      streamTimes := [];
      scanRate := None;
    }

    /// `read`: refuse a rate above `max_scan_rate` before touching the
    /// device; otherwise key every read by its start time, de-interleave
    /// each stored read and append the frames and their times.
    /// `received` are the start times and samples the device delivered, and
    /// `actualRate` is the rate `eStreamStart` returned.
    method Read(scanRate: real, nreads: int, actualRate: real, received: seq<(string, seq<real>)>)
      returns (r: Result<(seq<string>, seq<Frame>), ReadError>)
      requires Valid()
      requires |received| == (if nreads > 0 then nreads else 0)
      modifies this`data, this`streamTimes, this`scanRate
      ensures Valid()
      ensures r.Err? <==> scanRate > maxScanRate
      ensures r.Err? ==> r.error == ScanRateTooHigh(scanRate, maxScanRate)
                         && data == old(data) && streamTimes == old(streamTimes)
                         && this.scanRate == old(this.scanRate)
      ensures r.Ok? ==>
                && r.value.0 == Collect(received).keys
                && r.value.1 == Frames(Collect(received).values, channelNames)
                && data == old(data) + r.value.1
                && streamTimes == old(streamTimes) + r.value.0
                && this.scanRate == Some(actualRate)
    {
      if scanRate > maxScanRate {
        return Err(ScanRateTooHigh(scanRate, maxScanRate));
      }
      var allData := CollectReads(received);
      var times := allData.keys;
      var frames := BuildFrames(allData.values, channelNames);
      data := data + frames;
      streamTimes := streamTimes + times;
      this.scanRate := Some(actualRate);
      return Ok((times, frames));
    }

    /// `reset`: forget every stored frame and time.
    method Reset()
      requires Valid()
      modifies this`data, this`streamTimes
      ensures Valid() && data == [] && streamTimes == []
    {
      data := [];
      streamTimes := [];
    }

    /// The guards of `to_csv`: a lone stream is always written singly, no
    /// data is an error, a negative index writes every stream, and a
    /// non-negative index writes that stream or, past the last one, fails
    /// where `self.stream_times[idx]` raises IndexError.
    function ToCsvPlan(idx: int): (r: Result<CsvPlan, CsvError>)
      reads this
      requires Valid()
      ensures r == Err(NoDataSaved) <==> data == []
      ensures |data| == 1 ==> r == Ok(SingleStream(0))
      ensures r.Ok? && r.value.SingleStream? ==> r.value.index < |data|
      ensures |data| > 1 ==> (r == Ok(AllStreams) <==> idx < 0)
      ensures |data| > 1 && 0 <= idx < |data| ==> r == Ok(SingleStream(idx))
      ensures |data| > 1 && idx >= |data| ==> r == Err(StreamIndexOutOfRange(idx))
    {
      var i := if |data| == 1 then 0 else idx;
      if |data| == 0 then Err(NoDataSaved)
      else if i < 0 then Ok(AllStreams)
      else if i >= |streamTimes| then Err(StreamIndexOutOfRange(i))
      else Ok(SingleStream(i))
    }
  }
}
