/**
 * The three DTMF keypad tables of the repository, over the row/column
 * frequency grid of ITU-T Recommendation Q.23 (Figure 1/Q.23).
 */
module Keypad {

  /** A (low, high) = (row, column) frequency pair in Hz. */
  datatype FreqPair = FreqPair(low: int, high: int)

  /** Row (low-group) frequencies, in the order both decoders scan them. */
  const RowFreqs: seq<int> := [697, 770, 852, 941]

  /** Column (high-group) frequencies, in the order both decoders scan them. */
  const ColFreqs: seq<int> := [1209, 1336, 1477, 1633]

  /** `DTMF_FREQS` of the desktop app: symbol to (row, column). */
  const DesktopTable: map<char, FreqPair> := map[
    '1' := FreqPair(697, 1209), '2' := FreqPair(697, 1336), '3' := FreqPair(697, 1477), 'A' := FreqPair(697, 1633),
    '4' := FreqPair(770, 1209), '5' := FreqPair(770, 1336), '6' := FreqPair(770, 1477), 'B' := FreqPair(770, 1633),
    '7' := FreqPair(852, 1209), '8' := FreqPair(852, 1336), '9' := FreqPair(852, 1477), 'C' := FreqPair(852, 1633),
    '*' := FreqPair(941, 1209), '0' := FreqPair(941, 1336), '#' := FreqPair(941, 1477), 'D' := FreqPair(941, 1633)
  ]

  /** The order in which iterating the desktop dictionary visits its keys (insertion order). */
  const DesktopKeyOrder: seq<char> := "123A456B789C*0#D"

  /** `DTMF_FREQUENCIES` of the web decoder: (row, column) to symbol. */
  const FlaskTable: map<FreqPair, char> := map[
    FreqPair(697, 1209) := '1', FreqPair(697, 1336) := '2', FreqPair(697, 1477) := '3', FreqPair(697, 1633) := 'A',
    FreqPair(770, 1209) := '4', FreqPair(770, 1336) := '5', FreqPair(770, 1477) := '6', FreqPair(770, 1633) := 'B',
    FreqPair(852, 1209) := '7', FreqPair(852, 1336) := '8', FreqPair(852, 1477) := '9', FreqPair(852, 1633) := 'C',
    FreqPair(941, 1209) := '*', FreqPair(941, 1336) := '0', FreqPair(941, 1477) := '#', FreqPair(941, 1633) := 'D'
  ]

  /** `DTMF_FREQS` of the mobile dialer: the twelve keys of a telephone keypad. */
  const DialerTable: map<char, FreqPair> := map[
    '1' := FreqPair(697, 1209), '2' := FreqPair(697, 1336), '3' := FreqPair(697, 1477),
    '4' := FreqPair(770, 1209), '5' := FreqPair(770, 1336), '6' := FreqPair(770, 1477),
    '7' := FreqPair(852, 1209), '8' := FreqPair(852, 1336), '9' := FreqPair(852, 1477),
    '*' := FreqPair(941, 1209), '0' := FreqPair(941, 1336), '#' := FreqPair(941, 1477)
  ]

  /** The sixteen keypad symbols. */
  const Symbols: set<char> := {'0', '1', '2', '3', '4', '5', '6', '7', '8', '9', 'A', 'B', 'C', 'D', '*', '#'}

  ghost predicate Injective<K, V>(m: map<K, V>) {
    forall a, b | a in m && b in m && m[a] == m[b] :: a == b
  }

  /** Every pair of the table lies on the grid: low part a row, high part a column. */
  ghost predicate OnGrid(m: map<char, FreqPair>) {
    forall k | k in m :: m[k].low in RowFreqs && m[k].high in ColFreqs
  }

  /** Every row x column combination is the pair of some symbol of the table. */
  ghost predicate CoversGrid(m: map<char, FreqPair>) {
    forall r, c | r in RowFreqs && c in ColFreqs :: FreqPair(r, c) in m.Values
  }

  /** The rows lie in 697..941 Hz and the columns in 1209..1633 Hz. */
  lemma BandRanges()
    ensures forall r | r in RowFreqs :: 697 <= r <= 941
    ensures forall c | c in ColFreqs :: 1209 <= c <= 1633
  {
  }

  /** The two sixteen-entry tables are exact inverses of each other. */
  lemma TablesAreInverse()
    ensures forall k | k in DesktopTable :: DesktopTable[k] in FlaskTable && FlaskTable[DesktopTable[k]] == k
    ensures forall p | p in FlaskTable :: FlaskTable[p] in DesktopTable && DesktopTable[FlaskTable[p]] == p
  {
  }

  lemma FlaskKeysOnGrid()
    ensures forall r, c | r in RowFreqs && c in ColFreqs :: FreqPair(r, c) in FlaskTable
    ensures forall p | p in FlaskTable :: p.low in RowFreqs && p.high in ColFreqs
  {
    assert forall p | p in FlaskTable :: p.low in RowFreqs && p.high in ColFreqs;
  }

  /** A sequence without repetitions has as many distinct elements as it is long. */
  lemma {:induction false} DistinctCard<T>(s: seq<T>)
    requires forall i, j | 0 <= i < j < |s| :: s[i] != s[j]
    ensures |set x | x in s| == |s|
  {
    if s != [] {
      var init := s[..|s| - 1];
      DistinctCard(init);
      assert (set x | x in s) == (set x | x in init) + {s[|s| - 1]};
      assert s[|s| - 1] !in (set x | x in init);
    }
  }

  /** The grid pairs in row-major order: the order of the web decoder's dictionary. */
  const GridOrder: seq<FreqPair> := [
    FreqPair(697, 1209), FreqPair(697, 1336), FreqPair(697, 1477), FreqPair(697, 1633),
    FreqPair(770, 1209), FreqPair(770, 1336), FreqPair(770, 1477), FreqPair(770, 1633),
    FreqPair(852, 1209), FreqPair(852, 1336), FreqPair(852, 1477), FreqPair(852, 1633),
    FreqPair(941, 1209), FreqPair(941, 1336), FreqPair(941, 1477), FreqPair(941, 1633)]

  /** The dialer's keys in the order of its dictionary. */
  const DialerKeyOrder: seq<char> := "123456789*0#"

  lemma FlaskSize()
    ensures |FlaskTable| == 16
  {
    assert forall i, j | 0 <= i < j < |GridOrder| :: GridOrder[i] != GridOrder[j];
    DistinctCard(GridOrder);
    assert FlaskTable.Keys == set x | x in GridOrder;
  }

  lemma DesktopSize()
    ensures |DesktopTable| == 16
  {
    DesktopKeyOrderIsKeys();
    DesktopKeyOrderIsDistinct();
    DistinctCard(DesktopKeyOrder);
    assert DesktopTable.Keys == set x | x in DesktopKeyOrder;
  }

  lemma DialerSize()
    ensures |DialerTable| == 12
  {
    assert forall i, j | 0 <= i < j < |DialerKeyOrder| :: DialerKeyOrder[i] != DialerKeyOrder[j];
    DistinctCard(DialerKeyOrder);
    assert DialerTable.Keys == set x | x in DialerKeyOrder;
  }

  lemma DesktopKeysAreSymbols()
    ensures DesktopTable.Keys == Symbols
  {
  }

  lemma DialerKeysAreTwelve()
    ensures DialerTable.Keys == Symbols - {'A', 'B', 'C', 'D'}
  {
  }

  lemma DialerAgreesWithDesktop()
    ensures forall k | k in DialerTable :: k in DesktopTable && DialerTable[k] == DesktopTable[k]
  {
  }

  lemma FlaskValuesAreSymbols()
    ensures FlaskTable.Values == Symbols
  {
    TablesAreInverse();
    DesktopKeysAreSymbols();
    forall v | v in Symbols
      ensures v in FlaskTable.Values
    {
      assert FlaskTable[DesktopTable[v]] == v;
    }
  }

  lemma FlaskInjective()
    ensures Injective(FlaskTable)
  {
    TablesAreInverse();
  }

  /** The web decoder's keys are exactly the sixteen row x column combinations,
      and it yields each of the sixteen symbols for exactly one of them. */
  lemma FlaskTableIsBijection()
    ensures forall r, c | r in RowFreqs && c in ColFreqs :: FreqPair(r, c) in FlaskTable
    ensures forall p | p in FlaskTable :: p.low in RowFreqs && p.high in ColFreqs
    ensures |FlaskTable| == 16
    ensures FlaskTable.Values == Symbols
    ensures Injective(FlaskTable)
  {
    FlaskKeysOnGrid();
    FlaskSize();
    FlaskValuesAreSymbols();
    FlaskInjective();
  }

  /** The desktop table: sixteen symbols, each on the grid, no pair used twice, every grid pair used. */
  lemma DesktopTableIsBijection()
    ensures DesktopTable.Keys == Symbols && |DesktopTable| == 16
    ensures OnGrid(DesktopTable)
    ensures Injective(DesktopTable)
    ensures CoversGrid(DesktopTable)
  {
    DesktopKeysAreSymbols();
    DesktopSize();
    TablesAreInverse();
    FlaskKeysOnGrid();
    forall r, c | r in RowFreqs && c in ColFreqs
      ensures FreqPair(r, c) in DesktopTable.Values
    {
      var p := FreqPair(r, c);
      assert DesktopTable[FlaskTable[p]] == p;
    }
  }

  /** The dialer table: the twelve keys 0-9, `*`, `#`, agreeing with the desktop table on each. */
  lemma DialerTableIsSubMap()
    ensures DialerTable.Keys == Symbols - {'A', 'B', 'C', 'D'} && |DialerTable| == 12
    ensures forall k | k in DialerTable :: k in DesktopTable && DialerTable[k] == DesktopTable[k]
    ensures OnGrid(DialerTable)
    ensures Injective(DialerTable)
  {
    DialerKeysAreTwelve();
    DialerSize();
    DialerAgreesWithDesktop();
    DesktopTableIsBijection();
  }

  /** Iterating the desktop dictionary visits each of its keys ... */
  lemma DesktopKeyOrderIsKeys()
    ensures forall k :: k in DesktopKeyOrder <==> k in DesktopTable
  {
  }

  /** ... exactly once. */
  lemma DesktopKeyOrderIsDistinct()
    ensures |DesktopKeyOrder| == 16
    ensures forall i, j | 0 <= i < j < |DesktopKeyOrder| :: DesktopKeyOrder[i] != DesktopKeyOrder[j]
  {
  }
}
