/** One table shared by two kinds of writer: the orchestrator saves its audit record and clears
    the control flags when it is done; the command line and the UI set the flags. Every call is
    one SQL statement and so atomic. */
module Store {
  import opened Contracts
  import opened Prelude

  /** The three control columns. */
  datatype Flags = Flags(pause: bool, abort: bool, reason: Option<AbortReason>)

  const NO_FLAGS := Flags(false, false, None)

  datatype Row<R> = Row(blob: R, flags: Flags)

  type Table<R> = map<string, Row<R>>

  /** What an operator can write. */
  datatype Write = SetPause(on: bool) | RequestAbort(reason: AbortReason)

  function Applied(f: Flags, w: Write): Flags {
    match w
    case SetPause(on) => f.(pause := on)
    case RequestAbort(reason) => f.(abort := true, reason := Some(reason))
  }

  /** The joint effect of operator writes, in order. */
  function Effect(f: Flags, ws: seq<Write>): Flags
    decreases |ws|
  {
    if ws == [] then f else Effect(Applied(f, ws[0]), ws[1..])
  }

  // ----- the statements, as functions on the table ------------------------------------------

  function Saved<R>(t: Table<R>, id: string, blob: R): Table<R> {
    t[id := Row(blob, if id in t then t[id].flags else NO_FLAGS)]
  }

  function Written<R>(t: Table<R>, id: string, w: Write): Table<R> {
    if id in t then t[id := t[id].(flags := Applied(t[id].flags, w))] else t
  }

  function Cleared<R>(t: Table<R>, id: string): Table<R> {
    if id in t then t[id := t[id].(flags := NO_FLAGS)] else t
  }

  /** The two tables agree on this row. */
  ghost predicate SameRow<R>(t: Table<R>, u: Table<R>, id: string) {
    (id in u <==> id in t) && (id in t ==> u[id] == t[id])
  }

  class ExperimentStore<R> {
    var rows: Table<R>

    constructor ()
      ensures rows == map[]
    {
      rows := map[];
    }

    /** Upsert: a conflict updates the audit columns and leaves the control columns alone. */
    method Save(id: string, blob: R)
      modifies this
      ensures rows == Saved(old(rows), id, blob) && id in rows && rows[id].blob == blob
      ensures rows[id].flags == if id in old(rows) then old(rows)[id].flags else Flags(false, false, None)
      ensures forall other | other != id :: SameRow(old(rows), rows, other)
    {
      if id in rows {
        rows := rows[id := rows[id].(blob := blob)];
      } else {
        rows := rows[id := Row(blob, NO_FLAGS)];
      }
    }

    method Load(id: string) returns (blob: Option<R>)
      ensures blob == if id in rows then Some(rows[id].blob) else None
    {
      blob := if id in rows then Some(rows[id].blob) else None;
    }

    /** A missing row reads as no signals. */
    method LoadControl(id: string) returns (flags: Flags)
      ensures flags == if id in rows then rows[id].flags else NO_FLAGS
    {
      if id !in rows {
        return NO_FLAGS;
      }
      flags := rows[id].flags;
    }

    /** `changed` is what the command line reports; the UI turns its negation into a 404. */
    method SetPause(id: string, paused: bool) returns (changed: bool)
      modifies this
      ensures rows == Written(old(rows), id, Write.SetPause(paused)) && (changed <==> id in old(rows))
      ensures changed ==> rows == old(rows)[id := Row(old(rows)[id].blob, old(rows)[id].flags.(pause := paused))]
      ensures !changed ==> rows == old(rows)
    {
      changed := id in rows;
      if changed {
        rows := rows[id := rows[id].(flags := rows[id].flags.(pause := paused))];
      }
    }

    method RequestAbort(id: string, reason: AbortReason) returns (changed: bool)
      modifies this
      ensures rows == Written(old(rows), id, Write.RequestAbort(reason)) && (changed <==> id in old(rows))
      ensures changed ==>
        rows == old(rows)[id := Row(old(rows)[id].blob, Flags(old(rows)[id].flags.pause, true, Some(reason)))]
      ensures !changed ==> rows == old(rows)
    {
      changed := id in rows;
      if changed {
        rows := rows[id := rows[id].(flags := rows[id].flags.(abort := true, reason := Some(reason)))];
      }
    }

    method ClearControl(id: string)
      modifies this
      ensures rows == Cleared(old(rows), id)
      ensures rows == if id in old(rows) then old(rows)[id := Row(old(rows)[id].blob, Flags(false, false, None))]
          else old(rows)
    {
      if id in rows {
        rows := rows[id := rows[id].(flags := NO_FLAGS)];
      }
    }
  }

  // ----- any interleaving of both writers ------------------------------------------------------

  datatype Op<R> = DoSave(id: string, blob: R) | DoWrite(id: string, write: Write) | DoClear(id: string)

  function Step<R>(t: Table<R>, op: Op<R>): Table<R> {
    match op
    case DoSave(id, blob) => Saved(t, id, blob)
    case DoWrite(id, w) => Written(t, id, w)
    case DoClear(id) => Cleared(t, id)
  }

  function Run<R>(t: Table<R>, ops: seq<Op<R>>): Table<R>
    decreases |ops|
  {
    if ops == [] then t else Run(Step(t, ops[0]), ops[1..])
  }

  function SavesOf<R>(ops: seq<Op<R>>, id: string): seq<R>
    decreases |ops|
  {
    if ops == [] then []
    else (if ops[0].DoSave? && ops[0].id == id then [ops[0].blob] else []) + SavesOf(ops[1..], id)
  }

  function WritesOf<R>(ops: seq<Op<R>>, id: string): seq<Write>
    decreases |ops|
  {
    if ops == [] then []
    else (if ops[0].DoWrite? && ops[0].id == id then [ops[0].write] else []) + WritesOf(ops[1..], id)
  }

  ghost predicate Clears<R>(ops: seq<Op<R>>, id: string) {
    DoClear(id) in ops
  }

  lemma StepOnRow<R>(t: Table<R>, op: Op<R>, id: string, saves: seq<R>, writes: seq<Write>)
    requires id in t && op != DoClear(id)
    ensures id in Step(t, op)
    ensures LastOf(saves).GetOr(Step(t, op)[id].blob) == LastOf(SavesOf([op], id) + saves).GetOr(t[id].blob)
    ensures Effect(Step(t, op)[id].flags, writes) == Effect(t[id].flags, WritesOf([op], id) + writes)
  {
    assert [op][1..] == [];
    assert [] + saves == saves && [] + writes == writes;
    if op.DoWrite? && op.id == id {
      assert ([op.write] + writes)[1..] == writes;
      assert WritesOf([op], id) == [op.write];
    }
  }

  lemma HeadOf<R>(ops: seq<Op<R>>, id: string)
    requires ops != []
    ensures SavesOf(ops, id) == SavesOf([ops[0]], id) + SavesOf(ops[1..], id)
    ensures WritesOf(ops, id) == WritesOf([ops[0]], id) + WritesOf(ops[1..], id)
  {
    assert [ops[0]][1..] == [];
  }

  /** Neither writer disturbs the other: from any table with the row, any number of saves and
      operator writes in any order leave the flags at the effect of the writes alone and the blob
      at the last save alone. */
  lemma {:induction false} WritersDoNotInterfere<R>(t: Table<R>, ops: seq<Op<R>>, id: string)
    requires id in t && !Clears(ops, id)
    ensures id in Run(t, ops)
    ensures Run(t, ops)[id] == Row(LastOf(SavesOf(ops, id)).GetOr(t[id].blob), Effect(t[id].flags, WritesOf(ops, id)))
    decreases |ops|
  {
    if ops != [] {
      var op, rest := ops[0], ops[1..];
      assert forall x | x in rest :: x in ops;
      StepOnRow(t, op, id, SavesOf(rest, id), WritesOf(rest, id));
      HeadOf(ops, id);
      WritersDoNotInterfere(Step(t, op), rest, id);
    }
  }

  /** Merging an orchestrator's operations with an operator's. */
  ghost predicate Interleaves<R>(a: seq<Op<R>>, b: seq<Op<R>>, ops: seq<Op<R>>)
    decreases |ops|
  {
    if ops == [] then a == [] && b == []
    else
      || (a != [] && a[0] == ops[0] && Interleaves(a[1..], b, ops[1..]))
      || (b != [] && b[0] == ops[0] && Interleaves(a, b[1..], ops[1..]))
  }

  lemma {:induction false} InterleavedMembers<R>(a: seq<Op<R>>, b: seq<Op<R>>, ops: seq<Op<R>>)
    requires Interleaves(a, b, ops)
    ensures forall op | op in ops :: op in a || op in b
    decreases |ops|
  {
    if ops != [] {
      if a != [] && a[0] == ops[0] && Interleaves(a[1..], b, ops[1..]) {
        InterleavedMembers(a[1..], b, ops[1..]);
      } else {
        InterleavedMembers(a, b[1..], ops[1..]);
      }
    }
  }

  lemma {:induction false} InterleavingKeepsBoth<R>(saves: seq<Op<R>>, writes: seq<Op<R>>, ops: seq<Op<R>>, id: string)
    requires Interleaves(saves, writes, ops)
    requires forall op | op in saves :: op.DoSave?
    requires forall op | op in writes :: op.DoWrite?
    ensures SavesOf(ops, id) == SavesOf(saves, id) && WritesOf(ops, id) == WritesOf(writes, id)
    decreases |ops|
  {
    if ops != [] {
      HeadOf(ops, id);
      if saves != [] && saves[0] == ops[0] && Interleaves(saves[1..], writes, ops[1..]) {
        assert saves[0] in saves;
        InterleavingKeepsBoth(saves[1..], writes, ops[1..], id);
      } else {
        assert writes[0] in writes;
        InterleavingKeepsBoth(saves, writes[1..], ops[1..], id);
      }
    }
  }

  /** Whatever order the database serializes the two writers in, the row ends up the same. */
  lemma EveryInterleavingAgrees<R>(t: Table<R>, saves: seq<Op<R>>, writes: seq<Op<R>>, ops: seq<Op<R>>, id: string)
    requires id in t && Interleaves(saves, writes, ops)
    requires forall op | op in saves :: op.DoSave?
    requires forall op | op in writes :: op.DoWrite?
    ensures id in Run(t, ops)
    ensures Run(t, ops)[id] == Row(LastOf(SavesOf(saves, id)).GetOr(t[id].blob),
        Effect(t[id].flags, WritesOf(writes, id)))
  {
    InterleavingKeepsBoth(saves, writes, ops, id);
    InterleavedMembers(saves, writes, ops);
    WritersDoNotInterfere(t, ops, id);
  }

  /** Before its first save an experiment cannot be signalled: such writes are lost. */
  lemma {:induction false} WritesBeforeTheRowAreLost<R>(t: Table<R>, ops: seq<Op<R>>, id: string)
    requires id !in t && SavesOf(ops, id) == []
    ensures id !in Run(t, ops)
    decreases |ops|
  {
    if ops != [] {
      WritesBeforeTheRowAreLost(Step(t, ops[0]), ops[1..], id);
    }
  }

  lemma {:induction false} RunLast<R>(t: Table<R>, ops: seq<Op<R>>)
    requires ops != []
    ensures Run(t, ops) == Step(Run(t, ops[..|ops| - 1]), ops[|ops| - 1])
    decreases |ops|
  {
    if |ops| > 1 {
      RunLast(Step(t, ops[0]), ops[1..]);
      assert ops[1..][..|ops| - 2] == ops[..|ops| - 1][1..];
    }
  }

  ghost predicate SavedIn<R>(ops: seq<Op<R>>, id: string) {
    exists i | 0 <= i < |ops| :: ops[i].DoSave? && ops[i].id == id
  }

  /** A row is there once it has been saved, and never goes away. */
  lemma {:induction false} RowExistsIff<R>(t: Table<R>, ops: seq<Op<R>>, id: string)
    ensures id in Run(t, ops) <==> id in t || SavedIn(ops, id)
    decreases |ops|
  {
    if ops != [] {
      var rest := ops[1..];
      RowExistsIff(Step(t, ops[0]), rest, id);
      assert SavedIn(ops, id) <==> (ops[0].DoSave? && ops[0].id == id) || SavedIn(rest, id) by {
        if i :| 0 < i < |ops| && ops[i].DoSave? && ops[i].id == id {
          assert rest[i - 1] == ops[i];
        }
        if i :| 0 <= i < |rest| && rest[i].DoSave? && rest[i].id == id {
          assert ops[i + 1] == rest[i];
        }
      }
    }
  }

  /** Operation k requests an abort on a row that is there, and nothing clears the flags from then on. */
  ghost predicate AbortLasts<R>(t: Table<R>, ops: seq<Op<R>>, id: string, k: nat)
    requires k < |ops|
  {
    && ops[k].DoWrite? && ops[k].id == id && ops[k].write.RequestAbort?
    && (id in t || SavedIn(ops[..k], id))
    && forall j | k < j < |ops| :: ops[j] != DoClear(id)
  }

  /** The same for the last word on pausing. */
  ghost predicate PauseLasts<R>(t: Table<R>, ops: seq<Op<R>>, id: string, k: nat)
    requires k < |ops|
  {
    && ops[k] == DoWrite(id, Write.SetPause(true))
    && (id in t || SavedIn(ops[..k], id))
    && forall j | k < j < |ops| ::
         ops[j] != DoClear(id) && !(ops[j].DoWrite? && ops[j].id == id && ops[j].write.SetPause?)
  }

  ghost predicate AbortSet<R>(t: Table<R>, id: string) {
    id in t && t[id].flags.abort
  }

  ghost predicate PauseSet<R>(t: Table<R>, id: string) {
    id in t && t[id].flags.pause
  }

  lemma AbortLastsStep<R>(t: Table<R>, ops: seq<Op<R>>, id: string, k: nat)
    requires k < |ops| - 1
    ensures AbortLasts(t, ops, id, k) <==> AbortLasts(t, ops[..|ops| - 1], id, k) && ops[|ops| - 1] != DoClear(id)
  {
    var front := ops[..|ops| - 1];
    assert front[..k] == ops[..k] && front[k] == ops[k];
    assert forall j | k < j < |front| :: front[j] == ops[j];
  }

  lemma PauseLastsStep<R>(t: Table<R>, ops: seq<Op<R>>, id: string, k: nat)
    requires k < |ops| - 1
    ensures PauseLasts(t, ops, id, k) <==>
      var last := ops[|ops| - 1];
      && PauseLasts(t, ops[..|ops| - 1], id, k)
      && last != DoClear(id) && !(last.DoWrite? && last.id == id && last.write.SetPause?)
  {
    var front := ops[..|ops| - 1];
    assert front[..k] == ops[..k] && front[k] == ops[k];
    assert forall j | k < j < |front| :: front[j] == ops[j];
  }

  ghost predicate SpeaksOfPause<R>(ops: seq<Op<R>>, id: string) {
    exists op | op in ops :: op.DoWrite? && op.id == id && op.write.SetPause?
  }

  lemma MembersOfLast<R>(ops: seq<Op<R>>)
    requires ops != []
    ensures forall op :: op in ops <==> op in ops[..|ops| - 1] || op == ops[|ops| - 1]
  {
    assert ops == ops[..|ops| - 1] + [ops[|ops| - 1]];
  }

  /** The exact condition: an abort is set in the end if and only if one was requested when the row was
      there, or was set all along, and nothing has cleared the flags since. */
  lemma {:induction false} AbortIsSetIff<R>(t: Table<R>, ops: seq<Op<R>>, id: string)
    ensures AbortSet(Run(t, ops), id) <==>
      || (AbortSet(t, id) && !Clears(ops, id))
      || exists k | 0 <= k < |ops| :: AbortLasts(t, ops, id, k)
    decreases |ops|
  {
    if ops != [] {
      var n := |ops| - 1;
      var front := ops[..n];
      AbortIsSetIff(t, front, id);
      RunLast(t, ops);
      MembersOfLast(ops);
      RowExistsIff(t, front, id);
      assert AbortLasts(t, ops, id, n) <==>
        ops[n].DoWrite? && ops[n].id == id && ops[n].write.RequestAbort? && id in Run(t, front);
      forall k | 0 <= k < n ensures AbortLasts(t, ops, id, k) <==>
        AbortLasts(t, front, id, k) && ops[n] != DoClear(id) {
        AbortLastsStep(t, ops, id, k);
      }
      hide AbortLasts, Run, SavedIn;
      if k :| 0 <= k < n && AbortLasts(t, front, id, k) {
        assert ops[n] != DoClear(id) ==> AbortLasts(t, ops, id, k);
      }
    }
  }

  /** A pause is set in the end if and only if the last word on it was said when the row was there, and
      nothing has cleared the flags since. */
  lemma {:induction false} PauseIsSetIff<R>(t: Table<R>, ops: seq<Op<R>>, id: string)
    ensures PauseSet(Run(t, ops), id) <==>
      || (PauseSet(t, id) && !Clears(ops, id) && !SpeaksOfPause(ops, id))
      || exists k | 0 <= k < |ops| :: PauseLasts(t, ops, id, k)
    decreases |ops|
  {
    if ops != [] {
      var n := |ops| - 1;
      var front, last := ops[..n], ops[n];
      var stays := last != DoClear(id) && !(last.DoWrite? && last.id == id && last.write.SetPause?);
      PauseIsSetIff(t, front, id);
      RunLast(t, ops);
      MembersOfLast(ops);
      RowExistsIff(t, front, id);
      assert PauseLasts(t, ops, id, n) <==> last == DoWrite(id, Write.SetPause(true)) && id in Run(t, front);
      forall k | 0 <= k < n ensures PauseLasts(t, ops, id, k) <==> PauseLasts(t, front, id, k) && stays {
        PauseLastsStep(t, ops, id, k);
      }
      hide PauseLasts, Run, SavedIn;
      if k :| 0 <= k < n && PauseLasts(t, front, id, k) {
        assert stays ==> PauseLasts(t, ops, id, k);
      }
    }
  }

  /** An abort that comes between the last poll and the end finds its row and is cleared all the same. */
  lemma LateAbortIsCleared<R>(t: Table<R>, id: string, reason: AbortReason)
    requires id in t
    ensures !AbortSet(Run(t, [DoWrite(id, Write.RequestAbort(reason)), DoClear(id)]), id)
  {
    var ops: seq<Op<R>> := [DoWrite(id, Write.RequestAbort(reason)), DoClear(id)];
    assert ops[..1] == [ops[0]] && ops[..1][..0] == [];
    RunLast(t, ops);
    RunLast(t, ops[..1]);
  }

  /** Effects compose, so a poll between two batches of writes sees exactly the first. */
  lemma {:induction false} EffectAppend(f: Flags, a: seq<Write>, b: seq<Write>)
    ensures Effect(f, a + b) == Effect(Effect(f, a), b)
    decreases |a|
  {
    if a == [] {
      assert a + b == b;
    } else {
      assert (a + b)[1..] == a[1..] + b;
      EffectAppend(Applied(f, a[0]), a[1..], b);
    }
  }

  /** No operator write ever takes an abort request back. */
  lemma {:induction false} AbortSticks(f: Flags, ws: seq<Write>)
    ensures Effect(f, ws).abort <==> f.abort || exists w | w in ws :: w.RequestAbort?
    decreases |ws|
  {
    if ws != [] {
      AbortSticks(Applied(f, ws[0]), ws[1..]);
      assert forall w :: w in ws <==> w == ws[0] || w in ws[1..];
    }
  }

  /** The last word counts, on the pause and on the reason to abort; what is not spoken of stays. */
  lemma LastWordCounts(f: Flags, before: seq<Write>, w: Write, after: seq<Write>)
    ensures w.SetPause? && (forall x | x in after :: !x.SetPause?) ==> Effect(f, before + [w] + after).pause == w.on
    ensures w.RequestAbort? && (forall x | x in after :: !x.RequestAbort?) ==>
      Effect(f, before + [w] + after).abort && Effect(f, before + [w] + after).reason == Some(w.reason)
  {
    EffectAppend(f, before + [w], after);
    EffectAppend(f, before, [w]);
    assert [w][1..] == [];
    Unspoken(Effect(f, before + [w]), after);
  }

  lemma {:induction false} Unspoken(f: Flags, ws: seq<Write>)
    ensures (forall w | w in ws :: !w.SetPause?) ==> Effect(f, ws).pause == f.pause
    ensures (forall w | w in ws :: !w.RequestAbort?)
        ==> Effect(f, ws).reason == f.reason && Effect(f, ws).abort == f.abort
    decreases |ws|
  {
    if ws != [] {
      assert ws[0] in ws && forall w | w in ws[1..] :: w in ws;
      Unspoken(Applied(f, ws[0]), ws[1..]);
    }
  }
}
