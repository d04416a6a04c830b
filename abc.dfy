/**
 * The ABC helpers of src/abc.rs: the simplification of a score converted
 * from ABC, the order in which ABC information fields are written, the
 * grammar of a header line, the defaulting of the required headers, and the
 * header lines put in front of a tune.
 */
module Abc {
  import opened Results
  import opened Score

  const U64Modulus: nat := 0x1_0000_0000_0000_0000

  /**
   * A time rounded down to a whole millisecond, as `Duration::from_millis`
   * of `as_millis() as u64`: the millisecond count wraps modulo 2^64 in the
   * cast.
   */
  function SimplifiedTime(t: Time): (r: Time)
    ensures r % NanosPerMilli == 0
  {
    ((t / NanosPerMilli) % U64Modulus) * NanosPerMilli
  }

  /**
   * Rounding down never moves a time later, loses less than a millisecond
   * when the millisecond count fits in 64 bits, and leaves a rounded time as
   * it is.
   */
  lemma SimplifiedTimeBounds(t: Time)
    ensures SimplifiedTime(t) <= t
    ensures t / NanosPerMilli < U64Modulus ==> t - SimplifiedTime(t) < NanosPerMilli
    ensures SimplifiedTime(SimplifiedTime(t)) == SimplifiedTime(t)
  {
    var m := t / NanosPerMilli;
    var q := m % U64Modulus;
    assert q <= m;
    assert (q * NanosPerMilli) / NanosPerMilli == q;
  }

  /**
   * `simplify_score`: every note keeps its pitch, its time is rounded down to
   * a whole millisecond, and its velocity becomes 100 unless it is 0.
   */
  function SimplifyScore(score: seq<ScoreNote>): (r: seq<ScoreNote>)
    ensures |r| == |score|
    ensures forall i :: 0 <= i < |r| ==> r[i].pitch == score[i].pitch && r[i].time <= score[i].time
    ensures forall i :: 0 <= i < |r| ==> r[i].time == SimplifiedTime(score[i].time)
    ensures forall i :: 0 <= i < |r| ==> (r[i].velocity == 0 <==> score[i].velocity == 0)
    ensures forall i :: 0 <= i < |r| ==> r[i].velocity == 0 || r[i].velocity == 100
  {
    seq(|score|, i requires 0 <= i < |score| =>
      SimplifiedTimeBounds(score[i].time);
      ScoreNote(SimplifiedTime(score[i].time), score[i].pitch, SimplifiedVelocity(score[i].velocity)))
  }

  /** Simplifying a simplified score changes nothing. */
  lemma SimplifyScoreIdempotent(score: seq<ScoreNote>)
    ensures SimplifyScore(SimplifyScore(score)) == SimplifyScore(score)
  {
    var once := SimplifyScore(score);
    forall i | 0 <= i < |score|
      ensures SimplifyScore(once)[i] == once[i]
    {
      SimplifiedTimeBounds(score[i].time);
    }
  }

  /** The outcome of a comparison, as Rust's `Ordering`. */
  datatype Ordering = Less | Equal | Greater
  {
    function Reverse(): Ordering
    {
      match this
      case Less => Greater
      case Equal => Equal
      case Greater => Less
    }
  }

  /** The rank of an information field in a header: X first, T second, K last and every other in the middle. */
  datatype InfoFieldOrder = First | Second | Middle | Last
  {
    function Rank(): nat
    {
      match this
      case First => 0
      case Second => 1
      case Middle => 2
      case Last => 3
    }
  }

  /** `OrderedInfoFieldName::decorate`: the rank of a field name, paired with the name itself. */
  function Decorate(name: char): (d: (InfoFieldOrder, char))
    ensures d.1 == name
    ensures name == 'X' <==> d.0 == First
    ensures name == 'T' <==> d.0 == Second
    ensures name == 'K' <==> d.0 == Last
  {
    match name
    case 'X' => (First, 'X')
    case 'T' => (Second, 'T')
    case 'K' => (Last, 'K')
    case c => (Middle, c)
  }

  function CompareNat(a: nat, b: nat): Ordering
  {
    if a < b then Less else if a == b then Equal else Greater
  }

  /** `Ord::cmp` of `OrderedInfoFieldName`: the decorations compared as tuples, rank first, then the character. */
  function Cmp(a: char, b: char): (r: Ordering)
    ensures r == Equal <==> a == b
    ensures a == 'X' && b != 'X' ==> r == Less
    ensures a == 'T' && b != 'X' && b != 'T' ==> r == Less
    ensures b == 'K' && a != 'K' ==> r == Less
    ensures a !in "XTK" && b !in "XTK" ==> (r == Less <==> a < b)
  {
    var (da, db) := (Decorate(a), Decorate(b));
    if da.0.Rank() != db.0.Rank() then CompareNat(da.0.Rank(), db.0.Rank())
    else CompareNat(da.1 as nat, db.1 as nat)
  }

  /** X comes before every other name, T before every name but X, and K after every other name. */
  lemma CmpPlacesRequiredFields(c: char)
    ensures c != 'X' ==> Cmp('X', c) == Less
    ensures c != 'X' && c != 'T' ==> Cmp('T', c) == Less
    ensures c != 'K' ==> Cmp(c, 'K') == Less
    ensures Cmp(c, 'X') != Less && Cmp('K', c) != Less
  {
  }

  /** Names other than X, T and K are ordered by their characters. */
  lemma CmpMiddleAlphabetical(a: char, b: char)
    requires a !in "XTK" && b !in "XTK"
    ensures Cmp(a, b) == CompareNat(a as nat, b as nat)
  {
  }

  /** The comparison is a total order: equal exactly on equal names, antisymmetric and transitive. */
  lemma CmpTotalOrder(a: char, b: char, c: char)
    ensures Cmp(a, b) == Equal <==> a == b
    ensures Cmp(b, a) == Cmp(a, b).Reverse()
    ensures Cmp(a, b) == Less && Cmp(b, c) == Less ==> Cmp(a, c) == Less
  {
  }

  /** The cases of `ordered_info_field_name_sorting`. */
  lemma OrderedInfoFieldNameSorting()
    ensures Cmp('I', 'X') == Greater && Cmp('K', 'X') == Greater && Cmp('O', 'X') == Greater
    ensures Cmp('T', 'X') == Greater && Cmp('X', 'X') == Equal && Cmp('Z', 'X') == Greater
    ensures Cmp('I', 'T') == Greater && Cmp('K', 'T') == Greater && Cmp('O', 'T') == Greater
    ensures Cmp('T', 'T') == Equal && Cmp('X', 'T') == Less && Cmp('Z', 'T') == Greater
    ensures Cmp('I', 'K') == Less && Cmp('K', 'K') == Equal && Cmp('O', 'K') == Less
    ensures Cmp('T', 'K') == Less && Cmp('X', 'K') == Less && Cmp('Z', 'K') == Less
    ensures Cmp('I', 'O') == Less && Cmp('O', 'I') == Greater && Cmp('I', 'I') == Equal
  {
  }

  /** An information field: a one-letter name and the text after it. */
  datatype Field = Field(name: char, value: string)

  predicate IsAsciiLetter(c: char)
  {
    'A' <= c <= 'Z' || 'a' <= c <= 'z'
  }

  /** The `optional_space` rule: the end of the run of spaces and tabs from `i`. */
  function SkipSpaces(s: string, i: nat): (j: nat)
    requires i <= |s|
    ensures i <= j <= |s|
    ensures forall k :: i <= k < j ==> s[k] == ' ' || s[k] == '\t'
    ensures j < |s| ==> s[j] != ' ' && s[j] != '\t'
    decreases |s| - i
  {
    if i < |s| && (s[i] == ' ' || s[i] == '\t') then SkipSpaces(s, i + 1) else i
  }

  /** The first line feed at or after `i`, or the end of `s`. */
  function LineEnd(s: string, i: nat): (j: nat)
    requires i <= |s|
    ensures i <= j <= |s|
    ensures forall k :: i <= k < j ==> s[k] != '\n'
    ensures j < |s| ==> s[j] == '\n'
    decreases |s| - i
  {
    if i == |s| || s[i] == '\n' then i else LineEnd(s, i + 1)
  }

  /**
   * The `info_field_any` rule at the start of `s`: one ASCII letter, a colon,
   * optional spaces and tabs, then the rest of the line as the value, and the
   * line feed that ends it; the field and the number of characters it takes,
   * or none when `s` does not start with such a line.
   */
  function InfoField(s: string): (r: Option<(Field, nat)>)
    ensures r.Some? <==> |s| >= 2 && IsAsciiLetter(s[0]) && s[1] == ':' && '\n' in s[2..]
    ensures r.Some? ==> var (f, n) := r.value;
      && 2 + |f.value| < n <= |s| && s[n - 1] == '\n' && '\n' !in f.value
      && s[0] == f.name && IsAsciiLetter(f.name) && s[1] == ':'
      && s[n - 1 - |f.value|..n - 1] == f.value
      && (forall k :: 2 <= k < n - 1 - |f.value| ==> s[k] == ' ' || s[k] == '\t')
      && (f.value != [] ==> f.value[0] != ' ' && f.value[0] != '\t')
  {
    if |s| >= 2 && IsAsciiLetter(s[0]) && s[1] == ':' then
      var j := SkipSpaces(s, 2);
      var e := LineEnd(s, j);
      assert '\n' in s[2..] ==> e < |s| by {
        if '\n' in s[2..] {
          var k :| 0 <= k < |s[2..]| && s[2..][k] == '\n';
          assert s[k + 2] == '\n';
        }
      }
      if e < |s| then
        assert s[2..][e - 2] == '\n';
        assert forall k :: 0 <= k < e - j ==> s[j..e][k] == s[j + k];
        Some((Field(s[0], s[j..e]), e + 1))
      else None
    else None
  }

  /** The line `abc_into_score` writes for a field: the name, a colon and a space, the value and a line feed. */
  function FieldLine(name: char, value: string): (line: string)
    ensures |line| == |value| + 4 && line[0] == name && line[1..3] == ": "
    ensures line[3..|line| - 1] == value && line[|line| - 1] == '\n'
  {
    [name] + ": " + value + "\n"
  }

  /**
   * A written field line reads back as the same field, whatever follows it,
   * when the name is a letter and the value neither holds a line feed nor
   * starts with a space or a tab.
   */
  lemma InfoFieldReadsFieldLine(name: char, value: string, rest: string)
    requires IsAsciiLetter(name) && '\n' !in value
    requires value != [] ==> value[0] != ' ' && value[0] != '\t'
    ensures InfoField(FieldLine(name, value) + rest) == Some((Field(name, value), |FieldLine(name, value)|))
  {
    var s := FieldLine(name, value) + rest;
    var e := 3 + |value|;
    assert s[e] == '\n';
    assert forall k :: 3 <= k < e ==> s[k] == value[k - 3];
    assert SkipSpaces(s, 3) == 3;
    assert SkipSpaces(s, 2) == 3;
    assert LineEnd(s, 3) == e;
    assert s[3..e] == value;
  }

  /** The `info_field_any()*` repetition: the fields read one after the other until a line is not a field. */
  function Fields(s: string): (fs: seq<Field>)
    ensures forall j :: 0 <= j < |fs| ==> IsAsciiLetter(fs[j].name)
    decreases |s|
  {
    match InfoField(s)
    case Some((f, n)) => [f] + Fields(s[n..])
    case None => []
  }

  /** The map `BTreeMap::from_iter` builds from the fields: a later field replaces an earlier one of the same name. */
  function FromFields(fs: seq<Field>): (h: map<char, string>)
  {
    if fs == [] then map[] else FromFields(fs[..|fs| - 1])[fs[|fs| - 1].name := fs[|fs| - 1].value]
  }

  /** A name is a key exactly when some field has it, and its value is the one of the last such field. */
  lemma {:induction false} FromFieldsLastWins(fs: seq<Field>, c: char)
    ensures c in FromFields(fs) <==> exists j :: 0 <= j < |fs| && fs[j].name == c
    ensures c in FromFields(fs) ==>
      exists j :: 0 <= j < |fs| && fs[j].name == c && FromFields(fs)[c] == fs[j].value
        && forall k :: j < k < |fs| ==> fs[k].name != c
  {
    if fs != [] {
      var init := fs[..|fs| - 1];
      FromFieldsLastWins(init, c);
      var last := |fs| - 1;
      if fs[last].name == c {
        assert FromFields(fs)[c] == fs[last].value;
      } else if c in FromFields(init) {
        var j :| 0 <= j < |init| && init[j].name == c && FromFields(init)[c] == init[j].value
          && forall k :: j < k < |init| ==> init[k].name != c;
        assert fs[j] == init[j];
        assert forall k :: j < k < |fs| ==> fs[k].name != c by {
          forall k | j < k < |fs| ensures fs[k].name != c {
            if k < last {
              assert fs[k] == init[k];
            }
          }
        }
      } else {
        assert forall j :: 0 <= j < |fs| ==> fs[j].name != c by {
          forall j | 0 <= j < |fs| ensures fs[j].name != c {
            if j < last {
              assert fs[j] == init[j];
            }
          }
        }
      }
    }
  }

  /** The header map `headers` returns for a tune: the read fields, with X, T and K defaulted when missing. */
  function HeaderMap(music: string): (h: map<char, string>)
    ensures 'X' in h && 'T' in h && 'K' in h
    ensures var read := FromFields(Fields(music));
      forall c :: c in read ==> c in h && h[c] == read[c]
  {
    var read := FromFields(Fields(music));
    var withX := if 'X' in read then read else read['X' := "1"];
    var withT := if 'T' in withX then withX else withX['T' := "test tune"];
    if 'K' in withT then withT else withT['K' := "C"]
  }

  /**
   * The headers hold every read field with its last value, and X, T and K
   * always, with the defaults "1", "test tune" and "C" only where the tune
   * has no such field.
   */
  lemma HeaderMapDefaults(music: string)
    ensures var read := FromFields(Fields(music));
      && HeaderMap(music).Keys == read.Keys + {'X', 'T', 'K'}
      && (forall c :: c in read ==> HeaderMap(music)[c] == read[c])
      && ('X' !in read ==> HeaderMap(music)['X'] == "1")
      && ('T' !in read ==> HeaderMap(music)['T'] == "test tune")
      && ('K' !in read ==> HeaderMap(music)['K'] == "C")
  {
    hide Fields, FromFields;
  }

  /**
   * The `headers` rule: reads the fields at the start of the tune into a map,
   * one after the other, then inserts each required field that is missing.
   * The rule never fails, as the repetition may read no field at all.
   */
  method Headers(music: string) returns (h: map<char, string>)
    ensures h == HeaderMap(music)
    ensures 'X' in h && 'T' in h && 'K' in h
  {
    var fields := Fields(music);
    h := map[];
    for i := 0 to |fields|
      invariant h == FromFields(fields[..i])
    {
      assert fields[..i + 1][..i] == fields[..i];
      h := h[fields[i].name := fields[i].value];
    }
    assert fields[..|fields|] == fields;
    if 'X' !in h {
      h := h['X' := "1"];
    }
    if 'T' !in h {
      h := h['T' := "test tune"];
    }
    if 'K' !in h {
      h := h['K' := "C"];
    }
  }

  /** `keys` lists the keys of `h` once each, in ascending order: the iteration order of the header map. */
  ghost predicate IsKeyOrder(keys: seq<char>, h: map<char, string>)
  {
    && (forall c :: c in h <==> c in keys)
    && (forall i, j :: 0 <= i < j < |keys| ==> Cmp(keys[i], keys[j]) == Less)
  }

  /** The header lines written for the keys `keys` of `h`, in that order. */
  function HeaderLines(h: map<char, string>, keys: seq<char>): (s: string)
    requires forall c :: c in keys ==> c in h
    ensures keys == [] <==> s == ""
    ensures |s| >= 4 * |keys|
    ensures keys != [] ==> s[0] == keys[0] && s[1] == ':' && s[|s| - 1] == '\n'
  {
    if keys == [] then "" else HeaderLines(h, keys[..|keys| - 1]) + FieldLine(keys[|keys| - 1], h[keys[|keys| - 1]])
  }

  /** The header lines start with the line of the first key. */
  lemma {:induction false} HeaderLinesFirst(h: map<char, string>, keys: seq<char>)
    requires |keys| > 0 && forall c :: c in keys ==> c in h
    ensures HeaderLines(h, keys) == FieldLine(keys[0], h[keys[0]]) + HeaderLines(h, keys[1..])
  {
    HeaderLinesLast(h, keys);
    hide FieldLine, HeaderLines;
    var init := keys[..|keys| - 1];
    if |keys| > 1 {
      HeaderLinesLast(h, keys[1..]);
      assert init[1..] == keys[1..][..|keys| - 2];
      HeaderLinesFirst(h, init);
      assert init[0] == keys[0];
    } else {
      assert init == [] && keys[1..] == [];
    }
  }

  /** The header lines end with the line of the last key. */
  lemma HeaderLinesLast(h: map<char, string>, keys: seq<char>)
    requires |keys| > 0 && forall c :: c in keys ==> c in h
    ensures HeaderLines(h, keys) == HeaderLines(h, keys[..|keys| - 1]) + FieldLine(keys[|keys| - 1], h[keys[|keys| - 1]])
  {
  }

  /**
   * The part of `abc_into_score` that can be modelled: the header lines of
   * the tune's header map, written in the map's key order `keys`, put in
   * front of the tune.
   */
  method AbcWithRequiredHeaders(music: string, keys: seq<char>) returns (text: string)
    requires IsKeyOrder(keys, HeaderMap(music))
    ensures text == HeaderLines(HeaderMap(music), keys) + music
  {
    var headers := Headers(music);
    text := "";
    for i := 0 to |keys|
      invariant text == HeaderLines(headers, keys[..i])
    {
      assert keys[..i + 1][..i] == keys[..i];
      text := text + FieldLine(keys[i], headers[keys[i]]);
    }
    assert keys[..|keys|] == keys;
    text := text + music;
  }

  /** In key order, a map holding X, T and K lists X first and K last. */
  lemma KeyOrderPlacesRequiredFields(h: map<char, string>, keys: seq<char>)
    requires IsKeyOrder(keys, h) && 'X' in h && 'T' in h && 'K' in h
    ensures |keys| >= 3 && keys[0] == 'X' && keys[|keys| - 1] == 'K'
  {
    var x :| 0 <= x < |keys| && keys[x] == 'X';
    var k :| 0 <= k < |keys| && keys[k] == 'K';
    var t :| 0 <= t < |keys| && keys[t] == 'T';
    CmpPlacesRequiredFields(keys[0]);
    assert x == 0;
    CmpPlacesRequiredFields(keys[|keys| - 1]);
    assert k == |keys| - 1;
    assert 0 < t < |keys| - 1;
  }

  /**
   * Written in key order, the headers start with the X line and end with the
   * K line, whatever fields the tune has.
   */
  lemma RequiredHeadersFirstAndLast(music: string, keys: seq<char>)
    requires IsKeyOrder(keys, HeaderMap(music))
    ensures |keys| >= 3 && keys[0] == 'X' && keys[|keys| - 1] == 'K'
    ensures var h := HeaderMap(music);
      && HeaderLines(h, keys) == FieldLine('X', h['X']) + HeaderLines(h, keys[1..])
      && HeaderLines(h, keys) == HeaderLines(h, keys[..|keys| - 1]) + FieldLine('K', h['K'])
  {
    HeaderMapDefaults(music);
    var h := HeaderMap(music);
    assert 'X' in h && 'T' in h && 'K' in h;
    hide HeaderMap;
    KeyOrderPlacesRequiredFields(h, keys);
    HeaderLinesFirst(h, keys);
  }

  /** A tune with only a key field gets the default X and T fields and keeps its key. */
  lemma HeadersOfTuneWithKey()
    ensures HeaderMap("K: D\nCDE") == map['K' := "D", 'X' := "1", 'T' := "test tune"]
  {
    InfoFieldReadsFieldLine('K', "D", "CDE");
    assert FieldLine('K', "D") + "CDE" == "K: D\nCDE";
    assert "K: D\nCDE"[5..] == "CDE";
    assert Fields("CDE") == [];
    assert Fields("K: D\nCDE") == [Field('K', "D")];
    assert FromFields([Field('K', "D")]) == map['K' := "D"];
  }

  /** The headers of a tune without header fields, in the order X, T, K, one field line each. */
  lemma TestTuneHeaderLines()
    ensures IsKeyOrder(['X', 'T', 'K'], HeaderMap("CDE"))
    ensures HeaderLines(HeaderMap("CDE"), ['X', 'T', 'K'])
      == FieldLine('X', "1") + FieldLine('T', "test tune") + FieldLine('K', "C")
  {
    hide FieldLine;
    TestTuneHeaderMap();
    var h := HeaderMap("CDE");
    hide HeaderMap;
    assert Cmp('X', 'T') == Less && Cmp('X', 'K') == Less && Cmp('T', 'K') == Less;
    HeaderLinesFirst(h, ['X', 'T', 'K']);
    HeaderLinesFirst(h, ['T', 'K']);
    HeaderLinesFirst(h, ['K']);
    assert ['X', 'T', 'K'][1..] == ['T', 'K'] && ['T', 'K'][1..] == ['K'] && ['K'][1..] == [];
  }

  /** A tune with no header fields gets exactly the three defaults. */
  lemma TestTuneHeaderMap()
    ensures HeaderMap("CDE") == map['X' := "1", 'T' := "test tune", 'K' := "C"]
  {
    assert Fields("CDE") == [];
  }

  /** The default X line, written out. */
  lemma DefaultXLine()
    ensures FieldLine('X', "1") == "X: 1\n"
  {
  }

  /** The default T line, written out. */
  lemma DefaultTLine()
    ensures FieldLine('T', "test tune") == "T: test tune\n"
  {
  }

  /** The default K line, written out. */
  lemma DefaultKLine()
    ensures FieldLine('K', "C") == "K: C\n"
  {
  }

  /** The three default field lines followed by the tune, written out. */
  lemma TestTuneText()
    ensures FieldLine('X', "1") + FieldLine('T', "test tune") + FieldLine('K', "C") + "CDE"
      == "X: 1\nT: test tune\nK: C\nCDE"
  {
    DefaultXLine();
    DefaultTLine();
    DefaultKLine();
    hide FieldLine;
  }

  /** `test_abc_into_score`, up to the ABC parser: a tune without headers gets X, T and K, in that order. */
  method AbcIntoScoreHeaders() returns (text: string)
    ensures text == "X: 1\nT: test tune\nK: C\nCDE"
  {
    TestTuneHeaderLines();
    TestTuneText();
    text := AbcWithRequiredHeaders("CDE", ['X', 'T', 'K']);
  }
}
