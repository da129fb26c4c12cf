/** Tool blocks abstracted from their messages: a list of slots and the table it amounts to. */
module BlockTable {
  import opened ChatMessages
  import opened ToolBlocks

  /** What matters of a tool block: whether its result is in, its output buffers and its replay markers. */
  datatype Block = Block(activity: bool, output: ToolOutput, markers: seq<string>)

  /** A message seen as the tool block it is, if it is one. */
  datatype Slot = NoSlot | Slot(toolUseId: string, block: Block)

  type Table = map<string, Block>

  const NEW_BLOCK := Block(false, NO_OUTPUT, [])

  function Entry(s: Slot): Table {
    if s.Slot? then map[s.toolUseId := s.block] else map[]
  }

  function TableOf(slots: seq<Slot>): Table {
    if slots == [] then map[] else TableOf(slots[..|slots| - 1]) + Entry(slots[|slots| - 1])
  }

  /** At most one block for each tool call. */
  ghost predicate OneEach(slots: seq<Slot>) {
    forall i, j | 0 <= i < j < |slots| && slots[i].Slot? && slots[j].Slot? :: slots[i].toolUseId != slots[j].toolUseId
  }

  ghost predicate Describes(slots: seq<Slot>, t: Table) {
    && (forall i | 0 <= i < |slots| && slots[i].Slot? :: slots[i].toolUseId in t && t[slots[i].toolUseId] == slots[i].block)
    && (forall x | x in t :: exists i :: 0 <= i < |slots| && slots[i].Slot? && slots[i].toolUseId == x)
  }

  lemma {:induction false} TableDescribes(slots: seq<Slot>)
    requires OneEach(slots)
    ensures Describes(slots, TableOf(slots))
  {
    if slots != [] {
      var n := |slots| - 1;
      var init := slots[..n];
      TableDescribes(init);
      forall i | 0 <= i < |slots| && slots[i].Slot?
        ensures slots[i].toolUseId in TableOf(slots) && TableOf(slots)[slots[i].toolUseId] == slots[i].block
      {
        if i < n {
          assert init[i] == slots[i];
        }
      }
      forall x | x in TableOf(slots) ensures exists i :: 0 <= i < |slots| && slots[i].Slot? && slots[i].toolUseId == x {
        if x in TableOf(init) {
          var i :| 0 <= i < n && init[i].Slot? && init[i].toolUseId == x;
          assert slots[i] == init[i];
        }
      }
    }
  }

  lemma DescriptionUnique(slots: seq<Slot>, a: Table, b: Table)
    requires Describes(slots, a) && Describes(slots, b)
    ensures a == b
  {
    forall x | x in a ensures x in b && b[x] == a[x] {
      var i :| 0 <= i < |slots| && slots[i].Slot? && slots[i].toolUseId == x;
    }
    forall x | x in b ensures x in a {
      var i :| 0 <= i < |slots| && slots[i].Slot? && slots[i].toolUseId == x;
    }
  }

  /** s may replace slot i: it is the block that was there, a block of a new call, or no block where none was. */
  ghost predicate Fits(slots: seq<Slot>, i: nat, s: Slot)
    requires i < |slots|
  {
    if slots[i].Slot? then s.Slot? && s.toolUseId == slots[i].toolUseId
    else s.Slot? ==> s.toolUseId !in TableOf(slots)
  }

  lemma UpdateOneEach(slots: seq<Slot>, i: nat, s: Slot)
    requires OneEach(slots) && i < |slots| && Fits(slots, i, s)
    ensures OneEach(slots[i := s])
  {
    TableDescribes(slots);
  }

  /** Another slot keeps its entry when slot i is replaced. */
  lemma OtherEntry(slots: seq<Slot>, i: nat, j: nat, s: Slot, t: Table)
    requires i < |slots| && j < |slots| && j != i && slots[j].Slot? && OneEach(slots[i := s]) && Describes(slots, t)
    ensures slots[j].toolUseId in t + Entry(s) && (t + Entry(s))[slots[j].toolUseId] == slots[j].block
  {
    var after := slots[i := s];
    assert after[j] == slots[j] && after[i] == s;
    assert slots[j].toolUseId !in Entry(s);
  }

  /** Every entry of the new table has a slot. */
  lemma EntrySlot(slots: seq<Slot>, i: nat, s: Slot, t: Table, x: string) returns (j: nat)
    requires i < |slots| && Describes(slots, t) && x in t + Entry(s)
    requires slots[i].Slot? ==> s.Slot? && s.toolUseId == slots[i].toolUseId
    ensures j < |slots| && slots[i := s][j].Slot? && slots[i := s][j].toolUseId == x
  {
    if x in Entry(s) {
      j := i;
    } else {
      j :| 0 <= j < |slots| && slots[j].Slot? && slots[j].toolUseId == x;
    }
  }

  lemma UpdateDescribes(slots: seq<Slot>, i: nat, s: Slot, t: Table)
    requires i < |slots| && OneEach(slots[i := s]) && Describes(slots, t)
    requires slots[i].Slot? ==> s.Slot? && s.toolUseId == slots[i].toolUseId
    ensures Describes(slots[i := s], t + Entry(s))
  {
    var after, u := slots[i := s], t + Entry(s);
    forall j | 0 <= j < |after| && after[j].Slot? ensures after[j].toolUseId in u && u[after[j].toolUseId] == after[j].block {
      if j != i {
        OtherEntry(slots, i, j, s, t);
      }
    }
    forall x | x in u ensures exists j :: 0 <= j < |after| && after[j].Slot? && after[j].toolUseId == x {
      var j := EntrySlot(slots, i, s, t, x);
    }
  }

  lemma UpdateTable(slots: seq<Slot>, i: nat, s: Slot)
    requires OneEach(slots) && i < |slots| && Fits(slots, i, s)
    ensures OneEach(slots[i := s]) && TableOf(slots[i := s]) == TableOf(slots) + Entry(s)
  {
    hide Describes, TableOf;
    UpdateOneEach(slots, i, s);
    TableDescribes(slots);
    UpdateDescribes(slots, i, s, TableOf(slots));
    TableDescribes(slots[i := s]);
    DescriptionUnique(slots[i := s], TableOf(slots) + Entry(s), TableOf(slots[i := s]));
  }

  lemma {:induction false} AppendTable(slots: seq<Slot>, s: Slot)
    requires OneEach(slots) && (s.Slot? ==> s.toolUseId !in TableOf(slots))
    ensures OneEach(slots + [s]) && TableOf(slots + [s]) == TableOf(slots) + Entry(s)
  {
    TableDescribes(slots);
    assert (slots + [s])[..|slots|] == slots;
  }

  /** Dropping elements that are no blocks leaves the table alone. */
  lemma {:induction false} DropTable(slots: seq<Slot>)
    requires slots != [] && OneEach(slots) && slots[|slots| - 1].NoSlot?
    ensures OneEach(slots[..|slots| - 1]) && TableOf(slots[..|slots| - 1]) == TableOf(slots)
  {
  }

  /** The last block belongs to a call the table of the others does not have. */
  lemma LastIsFresh(slots: seq<Slot>)
    requires slots != [] && OneEach(slots) && slots[|slots| - 1].Slot?
    ensures OneEach(slots[..|slots| - 1]) && slots[|slots| - 1].toolUseId !in TableOf(slots[..|slots| - 1])
  {
    TableDescribes(slots[..|slots| - 1]);
  }

  /** The slot a table entry comes from. */
  lemma SlotOfEntry(slots: seq<Slot>, x: string) returns (i: nat)
    requires OneEach(slots) && x in TableOf(slots)
    ensures i < |slots| && slots[i] == Slot(x, TableOf(slots)[x])
  {
    TableDescribes(slots);
    i :| 0 <= i < |slots| && slots[i].Slot? && slots[i].toolUseId == x;
  }

  lemma {:induction false} EntryOfSlot(slots: seq<Slot>, i: nat)
    requires OneEach(slots) && i < |slots| && slots[i].Slot?
    ensures slots[i].toolUseId in TableOf(slots) && TableOf(slots)[slots[i].toolUseId] == slots[i].block
  {
    TableDescribes(slots);
  }
}
