/**
 Table-driven translation of flag words between the two sides. A word is the set of its one
 bits, so that masking is intersection and merging is union.
 */
module BitMasks {

  type Word = set<nat>

  datatype Row = Row(x86Mask: Word, x86Bits: Word, alphaMask: Word, alphaBits: Word)

  /** The rows before the one that ends the table. */
  function Rows(tbl: seq<Row>): seq<Row> {
    if tbl == [] || tbl[0].x86Mask == {} || tbl[0].alphaMask == {} then [] else [tbl[0]] + Rows(tbl[1..])
  }

  function ToHost(word: Word, rows: seq<Row>): Word {
    if rows == [] then {}
    else (if word * rows[0].x86Mask == rows[0].x86Bits then rows[0].alphaBits else {}) + ToHost(word, rows[1..])
  }

  function ToTarget(word: Word, rows: seq<Row>): Word {
    if rows == [] then {}
    else (if word * rows[0].alphaMask == rows[0].alphaBits then rows[0].x86Bits else {}) + ToTarget(word, rows[1..])
  }

  method TargetToHostBitmask(word: Word, tbl: seq<Row>) returns (r: Word)
    ensures r == ToHost(word, Rows(tbl))
  {
    r := {};
    var i := 0;
    while i < |tbl| && tbl[i].x86Mask != {} && tbl[i].alphaMask != {}
      invariant 0 <= i <= |tbl|
      invariant ToHost(word, Rows(tbl)) == r + ToHost(word, Rows(tbl[i..]))
    {
      RowsStep(tbl, i);
      if word * tbl[i].x86Mask == tbl[i].x86Bits {
        r := r + tbl[i].alphaBits;
      }
      i := i + 1;
    }
  }

  method HostToTargetBitmask(word: Word, tbl: seq<Row>) returns (r: Word)
    ensures r == ToTarget(word, Rows(tbl))
  {
    r := {};
    var i := 0;
    while i < |tbl| && tbl[i].x86Mask != {} && tbl[i].alphaMask != {}
      invariant 0 <= i <= |tbl|
      invariant ToTarget(word, Rows(tbl)) == r + ToTarget(word, Rows(tbl[i..]))
    {
      RowsStep(tbl, i);
      if word * tbl[i].alphaMask == tbl[i].alphaBits {
        r := r + tbl[i].x86Bits;
      }
      i := i + 1;
    }
  }

  lemma RowsStep(tbl: seq<Row>, i: nat)
    requires i < |tbl| && tbl[i].x86Mask != {} && tbl[i].alphaMask != {}
    ensures Rows(tbl[i..]) == [tbl[i]] + Rows(tbl[i + 1..])
  {
    assert tbl[i..][0] == tbl[i] && tbl[i..][1..] == tbl[i + 1..];
  }

  /** The rows in force are those before the first one with an empty mask, on either side. */
  lemma {:induction false} RowsEnd(tbl: seq<Row>)
    ensures |Rows(tbl)| <= |tbl| && Rows(tbl) == tbl[..|Rows(tbl)|]
    ensures forall i :: 0 <= i < |Rows(tbl)| ==> tbl[i].x86Mask != {} && tbl[i].alphaMask != {}
    ensures |Rows(tbl)| < |tbl| ==> tbl[|Rows(tbl)|].x86Mask == {} || tbl[|Rows(tbl)|].alphaMask == {}
  {
    if tbl != [] {
      RowsEnd(tbl[1..]);
      assert tbl == [tbl[0]] + tbl[1..];
    }
  }

  // ---- tables of flags and of fields with several values

  predicate Matches(word: Word, r: Row) {
    word * r.x86Mask == r.x86Bits
  }

  /** Two values of one field. */
  predicate SameField(r: Row, q: Row) {
    r.x86Mask == q.x86Mask && r.alphaMask == q.alphaMask && r.x86Bits != q.x86Bits && r.alphaBits != q.alphaBits
  }

  /** The values lie inside their masks; rows are of one field, or their host masks are apart. */
  predicate HostFields(rows: seq<Row>) {
    && (forall i :: 0 <= i < |rows| ==> FieldRow(rows[i]))
    && (forall i, j :: 0 <= i < j < |rows| ==> SameField(rows[i], rows[j]) || rows[i].alphaMask !! rows[j].alphaMask)
  }

  predicate FieldRow(r: Row) {
    r.x86Bits <= r.x86Mask && r.alphaBits <= r.alphaMask && r.alphaMask != {}
  }

  /** The same for the target's masks too. */
  predicate Fields(rows: seq<Row>) {
    && HostFields(rows)
    && (forall i :: 0 <= i < |rows| ==> rows[i].x86Mask != {})
    && (forall i, j :: 0 <= i < j < |rows| ==> SameField(rows[i], rows[j]) || rows[i].x86Mask !! rows[j].x86Mask)
  }

  /** Each side's row in the place of the other's. */
  function Turn(r: Row): Row {
    Row(r.alphaMask, r.alphaBits, r.x86Mask, r.x86Bits)
  }

  function TurnAll(rows: seq<Row>): seq<Row> {
    seq(|rows|, i requires 0 <= i < |rows| => Turn(rows[i]))
  }

  lemma {:induction false} Turned(word: Word, rows: seq<Row>)
    ensures ToTarget(word, rows) == ToHost(word, TurnAll(rows))
    decreases |rows|
  {
    if rows != [] {
      Turned(word, rows[1..]);
      assert TurnAll(rows)[1..] == TurnAll(rows[1..]);
    }
  }

  lemma TurnFields(rows: seq<Row>)
    requires Fields(rows)
    ensures HostFields(TurnAll(rows))
  {
    var t := TurnAll(rows);
    forall i | 0 <= i < |t| ensures FieldRow(t[i]) {
      assert FieldRow(rows[i]);
    }
    forall i, j | 0 <= i < j < |t| ensures SameField(t[i], t[j]) || t[i].alphaMask !! t[j].alphaMask {
      assert SameField(rows[i], rows[j]) || rows[i].x86Mask !! rows[j].x86Mask;
    }
  }

  /** A field that no row matches stays clear. */
  lemma {:induction false} ClearField(word: Word, rows: seq<Row>, mask: Word)
    requires forall j :: 0 <= j < |rows| ==> rows[j].alphaBits !! mask || !Matches(word, rows[j])
    ensures ToHost(word, rows) !! mask
    decreases |rows|
  {
    if rows != [] {
      ClearField(word, rows[1..], mask);
    }
  }

  /** A field with one matching row gets that row's value. */
  lemma {:induction false} SetField(word: Word, rows: seq<Row>, i: nat)
    requires i < |rows| && Matches(word, rows[i]) && rows[i].alphaBits <= rows[i].alphaMask
    requires forall j :: 0 <= j < |rows| && j != i ==> rows[j].alphaBits !! rows[i].alphaMask || !Matches(word, rows[j])
    ensures ToHost(word, rows) * rows[i].alphaMask == rows[i].alphaBits
    decreases |rows|
  {
    var rest, mask := rows[1..], rows[i].alphaMask;
    var head := if Matches(word, rows[0]) then rows[0].alphaBits else {};
    assert (head + ToHost(word, rest)) * mask == head * mask + ToHost(word, rest) * mask;
    if i > 0 {
      assert rest[i - 1] == rows[i] && head !! mask;
      SetField(word, rest, i - 1);
    } else {
      ClearField(word, rest, mask);
    }
  }

  /** Row j is of the field of row i. */
  predicate Fellows(rows: seq<Row>, i: nat, j: nat)
    requires i < |rows| && j < |rows|
  {
    rows[j].alphaMask == rows[i].alphaMask
  }

  predicate NoneMatches(word: Word, rows: seq<Row>, i: nat)
    requires i < |rows|
  {
    forall j :: 0 <= j < |rows| && Fellows(rows, i, j) ==> !Matches(word, rows[j])
  }

  lemma PairOf(rows: seq<Row>, i: nat, j: nat)
    requires HostFields(rows) && i < |rows| && j < |rows| && i != j
    ensures if Fellows(rows, i, j) then SameField(rows[i], rows[j]) else rows[j].alphaBits !! rows[i].alphaMask
  {
    assert FieldRow(rows[i]) && FieldRow(rows[j]);
    if i < j {
      assert SameField(rows[i], rows[j]) || rows[i].alphaMask !! rows[j].alphaMask;
    } else {
      assert SameField(rows[j], rows[i]) || rows[j].alphaMask !! rows[i].alphaMask;
    }
    if Fellows(rows, i, j) {
      var x :| x in rows[i].alphaMask;
      assert x in rows[j].alphaMask;
    }
  }

  /** What a field holds on the other side: the value of its matching row, or nothing. */
  lemma FieldIs(word: Word, rows: seq<Row>, i: nat)
    requires HostFields(rows) && i < |rows|
    ensures Matches(word, rows[i]) ==> ToHost(word, rows) * rows[i].alphaMask == rows[i].alphaBits
    ensures NoneMatches(word, rows, i) ==> ToHost(word, rows) * rows[i].alphaMask == {}
  {
    assert FieldRow(rows[i]);
    forall j: nat | j < |rows| && j != i
      ensures rows[j].alphaBits !! rows[i].alphaMask || (Fellows(rows, i, j) && SameField(rows[i], rows[j]))
    {
      PairOf(rows, i, j);
    }
    if Matches(word, rows[i]) {
      SetField(word, rows, i);
    }
    if NoneMatches(word, rows, i) {
      assert Fellows(rows, i, i);
      ClearField(word, rows, rows[i].alphaMask);
    }
  }

  lemma FellowMask(rows: seq<Row>, i: nat, j: nat)
    requires HostFields(rows) && i < |rows| && j < |rows| && Fellows(rows, i, j)
    ensures rows[j].alphaMask == rows[i].alphaMask && rows[j].x86Mask == rows[i].x86Mask && (rows[j].alphaBits == rows[i].alphaBits ==> i == j)
    ensures rows[j].x86Bits == rows[i].x86Bits ==> i == j
  {
    if i != j {
      PairOf(rows, i, j);
    }
  }

  /** On the host a row's value is read back exactly when the row matched, or when it stands for nothing and no row of its field matched. */
  lemma FieldSet(word: Word, rows: seq<Row>, i: nat)
    requires HostFields(rows) && i < |rows|
    ensures ToHost(word, rows) * rows[i].alphaMask == rows[i].alphaBits <==>
            Matches(word, rows[i]) || (rows[i].alphaBits == {} && NoneMatches(word, rows, i))
  {
    FieldIs(word, rows, i);
    if !NoneMatches(word, rows, i) {
      var j: nat :| j < |rows| && Fellows(rows, i, j) && Matches(word, rows[j]);
      FieldIs(word, rows, j);
      FellowMask(rows, i, j);
    }
  }

  /** Some row of the field has no bits on the host. */
  predicate HasEmpty(rows: seq<Row>, i: nat)
    requires i < |rows|
  {
    exists j :: 0 <= j < |rows| && Fellows(rows, i, j) && rows[j].alphaBits == {}
  }

  lemma Back(host: Word, rows: seq<Row>, i: nat)
    requires Fields(rows) && i < |rows|
    ensures host * rows[i].alphaMask == rows[i].alphaBits ==> ToTarget(host, rows) * rows[i].x86Mask == rows[i].x86Bits
    ensures (forall j :: 0 <= j < |rows| && Fellows(rows, i, j) ==> host * rows[j].alphaMask != rows[j].alphaBits) ==>
            ToTarget(host, rows) * rows[i].x86Mask == {}
  {
    Turned(host, rows);
    TurnFields(rows);
    var t := TurnAll(rows);
    FieldIs(host, t, i);
    assert Matches(host, t[i]) <==> host * rows[i].alphaMask == rows[i].alphaBits;
    if forall j :: 0 <= j < |rows| && Fellows(rows, i, j) ==> host * rows[j].alphaMask != rows[j].alphaBits {
      forall j: nat | j < |t| && Fellows(t, i, j) ensures !Matches(host, t[j]) {
        TurnFellows(rows, i, j);
      }
    }
  }

  lemma TurnFellows(rows: seq<Row>, i: nat, j: nat)
    requires Fields(rows) && i < |rows| && j < |rows|
    ensures Fellows(TurnAll(rows), i, j) <==> Fellows(rows, i, j)
  {
    TurnFields(rows);
    if i != j {
      PairOf(rows, i, j);
      PairOf(TurnAll(rows), i, j);
    }
  }

  /** The values of the rows that are read back. */
  function Restored(word: Word, all: seq<Row>, k: nat): Word
    requires k <= |all|
    decreases |all| - k
  {
    if k == |all| then {}
    else
      (if Matches(word, all[k]) || (all[k].alphaBits == {} && NoneMatches(word, all, k)) then all[k].x86Bits else {})
      + Restored(word, all, k + 1)
  }

  lemma {:induction false} BackIsRestored(word: Word, all: seq<Row>, k: nat)
    requires HostFields(all) && k <= |all|
    ensures ToTarget(ToHost(word, all), all[k..]) == Restored(word, all, k)
    decreases |all| - k
  {
    hide ToHost, HostFields, Matches, NoneMatches;
    if k < |all| {
      assert all[k..][0] == all[k] && all[k..][1..] == all[k + 1..];
      FieldSet(word, all, k);
      BackIsRestored(word, all, k + 1);
    }
  }

  /**
   To the host and back gives the values of the rows that matched, and of the rows with the
   empty host pattern in fields that matched nothing, and no other bits.
   */
  lemma ThereAndBack(word: Word, rows: seq<Row>)
    requires HostFields(rows)
    ensures ToTarget(ToHost(word, rows), rows) == Restored(word, rows, 0)
  {
    assert rows[0..] == rows;
    BackIsRestored(word, rows, 0);
  }

  lemma SameNone(word: Word, rows: seq<Row>, i: nat, j: nat)
    requires i < |rows| && j < |rows| && Fellows(rows, i, j) && NoneMatches(word, rows, i)
    ensures NoneMatches(word, rows, j)
  {
    forall k: nat | k < |rows| && Fellows(rows, j, k) ensures !Matches(word, rows[k]) {
      assert Fellows(rows, i, k);
    }
  }

  /**
   To the host and back restores a field exactly when the table lists its value, or when it is
   clear and the table gives no value of the field the empty pattern on the host.
   */
  lemma FieldThereAndBack(word: Word, rows: seq<Row>, i: nat)
    requires Fields(rows) && i < |rows|
    ensures ToTarget(ToHost(word, rows), rows) * rows[i].x86Mask == word * rows[i].x86Mask <==>
            !NoneMatches(word, rows, i) || (word * rows[i].x86Mask == {} && !HasEmpty(rows, i))
  {
    hide ToHost, ToTarget, HostFields;
    var host := ToHost(word, rows);
    if !NoneMatches(word, rows, i) {
      var j: nat :| j < |rows| && Fellows(rows, i, j) && Matches(word, rows[j]);
      FieldSet(word, rows, j);
      FellowMask(rows, i, j);
      Back(host, rows, j);
    } else if HasEmpty(rows, i) {
      var j: nat :| j < |rows| && Fellows(rows, i, j) && rows[j].alphaBits == {};
      FieldSet(word, rows, j);
      FellowMask(rows, i, j);
      SameNone(word, rows, i, j);
      Back(host, rows, j);
      assert !Matches(word, rows[j]);
    } else {
      forall j: nat | j < |rows| && Fellows(rows, i, j) ensures host * rows[j].alphaMask != rows[j].alphaBits {
        FieldSet(word, rows, j);
        FellowMask(rows, i, j);
      }
      Back(host, rows, i);
    }
  }
}
