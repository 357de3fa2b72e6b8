/** The buffering parse-visitor: an append-only recorder of the calls a
    parser makes on a visitor, so that they can be replayed later to another
    visitor, once by moving the buffer out or any number of times by copying.

    A recorded `Visit` is a discriminant `VisitKind` plus a payload whose
    shape the kind determines. The program keeps the declaration attributes
    and the delete-keyword span in one union; here the payload is a sum type
    and `WellFormed` says which shape each kind must carry. The buffer itself
    is a sequence; the memory resource the program allocates it from is not
    modelled. */
module Buffering {
  import opened Wrappers
  import opened Lex
  import opened Language
  import PV = ParseVisitor

  /** One discriminant per visitor operation; a property declaration has two,
      because with and without a name the payloads differ. */
  datatype VisitKind =
    | EndOfModule
    | EnterBlockScope
    | EnterWithScope
    | EnterClassScope
    | EnterForScope
    | EnterFunctionScope
    | EnterFunctionScopeBody
    | EnterNamedFunctionScope
    | ExitBlockScope
    | ExitWithScope
    | ExitClassScope
    | ExitForScope
    | ExitFunctionScope
    | KeywordVariableUse
    | PropertyDeclarationWithName
    | PropertyDeclarationWithoutName
    | VariableAssignment
    | VariableDeleteUse
    | VariableExportUse
    | VariableTypeUse
    | VariableTypeofUse
    | VariableUse
    | VariableDeclaration

  datatype VarDeclData = VarDeclData(varKind: VariableKind, varInitKind: VariableInitKind)

  /** The four ways a record is built: kind only, kind and name, kind and
      name with declaration attributes, kind and name with an extra span. */
  datatype Payload =
    | NoPayload
    | Name(name: Identifier)
    | Declaration(name: Identifier, varDecl: VarDeclData)
    | DeleteUse(name: Identifier, extraSpan: SourceSpan)

  datatype Visit = Visit(kind: VisitKind, payload: Payload)

  datatype Shape = Nullary | Named | Declared | Deleted

  /** The payload shape a kind uses; every other slot is left unset. */
  function ShapeOf(kind: VisitKind): Shape
  {
    match kind
    case EnterNamedFunctionScope | KeywordVariableUse | PropertyDeclarationWithName
      | VariableAssignment | VariableExportUse | VariableTypeUse
      | VariableTypeofUse | VariableUse => Named
    case VariableDeclaration => Declared
    case VariableDeleteUse => Deleted
    case _ => Nullary
  }

  function PayloadShape(p: Payload): Shape
  {
    match p
    case NoPayload => Nullary
    case Name(_) => Named
    case Declaration(_, _) => Declared
    case DeleteUse(_, _) => Deleted
  }

  /** A record whose payload is the one its kind may be read with. */
  predicate WellFormed(v: Visit)
  {
    PayloadShape(v.payload) == ShapeOf(v.kind)
  }

  datatype BufferingVisitor = BufferingVisitor(visits: seq<Visit>)
  {
    /** Every record in the buffer can be replayed. */
    predicate Valid()
    {
      forall i :: 0 <= i < |visits| ==> WellFormed(visits[i])
    }
  }

  /** Replay dispatch: the visitor call a well-formed record stands for. */
  function Replayed(v: Visit): PV.VisitorCall
    requires WellFormed(v)
  {
    match v.kind
    case EndOfModule => PV.EndOfModule
    case EnterBlockScope => PV.EnterBlockScope
    case EnterWithScope => PV.EnterWithScope
    case EnterClassScope => PV.EnterClassScope
    case EnterForScope => PV.EnterForScope
    case EnterFunctionScope => PV.EnterFunctionScope
    case EnterFunctionScopeBody => PV.EnterFunctionScopeBody
    case EnterNamedFunctionScope => PV.EnterNamedFunctionScope(v.payload.name)
    case ExitBlockScope => PV.ExitBlockScope
    case ExitWithScope => PV.ExitWithScope
    case ExitClassScope => PV.ExitClassScope
    case ExitForScope => PV.ExitForScope
    case ExitFunctionScope => PV.ExitFunctionScope
    case KeywordVariableUse => PV.KeywordVariableUse(v.payload.name)
    case PropertyDeclarationWithName => PV.PropertyDeclaration(Some(v.payload.name))
    case PropertyDeclarationWithoutName => PV.PropertyDeclaration(None)
    case VariableAssignment => PV.VariableAssignment(v.payload.name)
    case VariableDeleteUse => PV.VariableDeleteUse(v.payload.name, v.payload.extraSpan)
    case VariableExportUse => PV.VariableExportUse(v.payload.name)
    case VariableTypeUse => PV.VariableTypeUse(v.payload.name)
    case VariableTypeofUse => PV.VariableTypeofUse(v.payload.name)
    case VariableUse => PV.VariableUse(v.payload.name)
    case VariableDeclaration =>
      PV.VariableDeclaration(v.payload.name, v.payload.varDecl.varKind, v.payload.varDecl.varInitKind)
  }

  /** The record a visitor call is stored as: the inverse of `Replayed`. */
  function Recorded(c: PV.VisitorCall): (v: Visit)
    ensures WellFormed(v)
    ensures Replayed(v) == c
  {
    match c
    case EndOfModule => Visit(EndOfModule, NoPayload)
    case EnterBlockScope => Visit(EnterBlockScope, NoPayload)
    case EnterWithScope => Visit(EnterWithScope, NoPayload)
    case EnterClassScope => Visit(EnterClassScope, NoPayload)
    case EnterForScope => Visit(EnterForScope, NoPayload)
    case EnterFunctionScope => Visit(EnterFunctionScope, NoPayload)
    case EnterFunctionScopeBody => Visit(EnterFunctionScopeBody, NoPayload)
    case EnterNamedFunctionScope(name) => Visit(EnterNamedFunctionScope, Name(name))
    case ExitBlockScope => Visit(ExitBlockScope, NoPayload)
    case ExitWithScope => Visit(ExitWithScope, NoPayload)
    case ExitClassScope => Visit(ExitClassScope, NoPayload)
    case ExitForScope => Visit(ExitForScope, NoPayload)
    case ExitFunctionScope => Visit(ExitFunctionScope, NoPayload)
    case KeywordVariableUse(name) => Visit(KeywordVariableUse, Name(name))
    case PropertyDeclaration(optionalName) =>
      if optionalName.Some? then Visit(PropertyDeclarationWithName, Name(optionalName.value))
      else Visit(PropertyDeclarationWithoutName, NoPayload)
    case VariableAssignment(name) => Visit(VariableAssignment, Name(name))
    case VariableDeclaration(name, kind, initKind) =>
      Visit(VariableDeclaration, Declaration(name, VarDeclData(kind, initKind)))
    case VariableDeleteUse(name, deleteKeyword) => Visit(VariableDeleteUse, DeleteUse(name, deleteKeyword))
    case VariableExportUse(name) => Visit(VariableExportUse, Name(name))
    case VariableTypeUse(name) => Visit(VariableTypeUse, Name(name))
    case VariableTypeofUse(name) => Visit(VariableTypeofUse, Name(name))
    case VariableUse(name) => Visit(VariableUse, Name(name))
  }

  /** Recording after replaying gives back the same record: the payload a
      well-formed record holds is exactly what its call carries. */
  lemma RecordedReplayed(v: Visit)
    requires WellFormed(v)
    ensures Recorded(Replayed(v)) == v
  {
  }

  /** Two well-formed records that replay as the same call are the same
      record, so a record's kind and payload are determined by the call. */
  lemma ReplayedInjective(v: Visit, w: Visit)
    requires WellFormed(v) && WellFormed(w)
    requires Replayed(v) == Replayed(w)
    ensures v == w
  {
    RecordedReplayed(v);
    RecordedReplayed(w);
  }

  /** `after` is `before` with one record appended, the earlier records
      untouched, and the new record the one `call` is stored as. */
  predicate RecordsCall(before: BufferingVisitor, after: BufferingVisitor, call: PV.VisitorCall)
  {
    after.visits == before.visits + [Recorded(call)]
  }

  /** Appending a record keeps the whole buffer replayable. */
  lemma RecordsCallPreservesValid(before: BufferingVisitor, after: BufferingVisitor, call: PV.VisitorCall)
    requires before.Valid()
    requires RecordsCall(before, after, call)
    ensures after.Valid()
    ensures Replayed(after.visits[|before.visits|]) == call
  {
    forall i | 0 <= i < |after.visits|
      ensures WellFormed(after.visits[i])
    {
      if i < |before.visits| {
        assert after.visits[i] == before.visits[i];
      }
    }
  }

  /** A new recorder holds nothing. */
  function New(): (b: BufferingVisitor)
    ensures |b.visits| == 0
  {
    BufferingVisitor([])
  }

  /** Appends a record holding only `kind`. */
  function Add(b: BufferingVisitor, kind: VisitKind): (r: BufferingVisitor)
    ensures |r.visits| == |b.visits| + 1
    ensures r.visits[..|b.visits|] == b.visits
    ensures r.visits[|b.visits|].kind == kind && r.visits[|b.visits|].payload.NoPayload?
  {
    BufferingVisitor(b.visits + [Visit(kind, NoPayload)])
  }

  /** Appends a record holding `kind` and `name`. */
  function AddNamed(b: BufferingVisitor, name: Identifier, kind: VisitKind): (r: BufferingVisitor)
    ensures |r.visits| == |b.visits| + 1
    ensures r.visits[..|b.visits|] == b.visits
    ensures r.visits[|b.visits|].kind == kind && r.visits[|b.visits|].payload == Name(name)
  {
    BufferingVisitor(b.visits + [Visit(kind, Name(name))])
  }

  function VisitEndOfModule(b: BufferingVisitor): (r: BufferingVisitor)
    ensures RecordsCall(b, r, PV.EndOfModule)
  {
    Add(b, EndOfModule)
  }

  function VisitEnterBlockScope(b: BufferingVisitor): (r: BufferingVisitor)
    ensures RecordsCall(b, r, PV.EnterBlockScope)
  {
    Add(b, EnterBlockScope)
  }

  function VisitEnterWithScope(b: BufferingVisitor): (r: BufferingVisitor)
    ensures RecordsCall(b, r, PV.EnterWithScope)
  {
    Add(b, EnterWithScope)
  }

  function VisitEnterClassScope(b: BufferingVisitor): (r: BufferingVisitor)
    ensures RecordsCall(b, r, PV.EnterClassScope)
  {
    Add(b, EnterClassScope)
  }

  function VisitEnterForScope(b: BufferingVisitor): (r: BufferingVisitor)
    ensures RecordsCall(b, r, PV.EnterForScope)
  {
    Add(b, EnterForScope)
  }

  function VisitEnterFunctionScope(b: BufferingVisitor): (r: BufferingVisitor)
    ensures RecordsCall(b, r, PV.EnterFunctionScope)
  {
    Add(b, EnterFunctionScope)
  }

  function VisitEnterFunctionScopeBody(b: BufferingVisitor): (r: BufferingVisitor)
    ensures RecordsCall(b, r, PV.EnterFunctionScopeBody)
  {
    Add(b, EnterFunctionScopeBody)
  }

  function VisitEnterNamedFunctionScope(b: BufferingVisitor, name: Identifier): (r: BufferingVisitor)
    ensures RecordsCall(b, r, PV.EnterNamedFunctionScope(name))
  {
    AddNamed(b, name, EnterNamedFunctionScope)
  }

  function VisitExitBlockScope(b: BufferingVisitor): (r: BufferingVisitor)
    ensures RecordsCall(b, r, PV.ExitBlockScope)
  {
    Add(b, ExitBlockScope)
  }

  function VisitExitWithScope(b: BufferingVisitor): (r: BufferingVisitor)
    ensures RecordsCall(b, r, PV.ExitWithScope)
  {
    Add(b, ExitWithScope)
  }

  function VisitExitClassScope(b: BufferingVisitor): (r: BufferingVisitor)
    ensures RecordsCall(b, r, PV.ExitClassScope)
  {
    Add(b, ExitClassScope)
  }

  function VisitExitForScope(b: BufferingVisitor): (r: BufferingVisitor)
    ensures RecordsCall(b, r, PV.ExitForScope)
  {
    Add(b, ExitForScope)
  }

  function VisitExitFunctionScope(b: BufferingVisitor): (r: BufferingVisitor)
    ensures RecordsCall(b, r, PV.ExitFunctionScope)
  {
    Add(b, ExitFunctionScope)
  }

  function VisitKeywordVariableUse(b: BufferingVisitor, name: Identifier): (r: BufferingVisitor)
    ensures RecordsCall(b, r, PV.KeywordVariableUse(name))
  {
    AddNamed(b, name, KeywordVariableUse)
  }

  /** A property declaration is recorded under one of two kinds, depending
      on whether it has a name; either way it replays as the same call. */
  function VisitPropertyDeclaration(b: BufferingVisitor, name: Option<Identifier>): (r: BufferingVisitor)
    ensures RecordsCall(b, r, PV.PropertyDeclaration(name))
    ensures r.visits[|b.visits|].kind
         == if name.Some? then PropertyDeclarationWithName else PropertyDeclarationWithoutName
  {
    if name.Some? then AddNamed(b, name.value, PropertyDeclarationWithName)
    else Add(b, PropertyDeclarationWithoutName)
  }

  function VisitVariableAssignment(b: BufferingVisitor, name: Identifier): (r: BufferingVisitor)
    ensures RecordsCall(b, r, PV.VariableAssignment(name))
  {
    AddNamed(b, name, VariableAssignment)
  }

  function VisitVariableDeclaration(b: BufferingVisitor, name: Identifier, kind: VariableKind,
                                    initKind: VariableInitKind): (r: BufferingVisitor)
    ensures RecordsCall(b, r, PV.VariableDeclaration(name, kind, initKind))
  {
    BufferingVisitor(b.visits + [Visit(VariableDeclaration, Declaration(name, VarDeclData(kind, initKind)))])
  }

  function VisitVariableDeleteUse(b: BufferingVisitor, name: Identifier,
                                  deleteKeyword: SourceSpan): (r: BufferingVisitor)
    ensures RecordsCall(b, r, PV.VariableDeleteUse(name, deleteKeyword))
  {
    BufferingVisitor(b.visits + [Visit(VariableDeleteUse, DeleteUse(name, deleteKeyword))])
  }

  function VisitVariableExportUse(b: BufferingVisitor, name: Identifier): (r: BufferingVisitor)
    ensures RecordsCall(b, r, PV.VariableExportUse(name))
  {
    AddNamed(b, name, VariableExportUse)
  }

  function VisitVariableTypeUse(b: BufferingVisitor, name: Identifier): (r: BufferingVisitor)
    ensures RecordsCall(b, r, PV.VariableTypeUse(name))
  {
    AddNamed(b, name, VariableTypeUse)
  }

  function VisitVariableTypeofUse(b: BufferingVisitor, name: Identifier): (r: BufferingVisitor)
    ensures RecordsCall(b, r, PV.VariableTypeofUse(name))
  {
    AddNamed(b, name, VariableTypeofUse)
  }

  function VisitVariableUse(b: BufferingVisitor, name: Identifier): (r: BufferingVisitor)
    ensures RecordsCall(b, r, PV.VariableUse(name))
  {
    AddNamed(b, name, VariableUse)
  }

  /** A producer calling the visitor interface on a buffering visitor:
      virtual dispatch to the matching override. */
  function Receive(b: BufferingVisitor, call: PV.VisitorCall): (r: BufferingVisitor)
    ensures RecordsCall(b, r, call)
  {
    match call
    case EndOfModule => VisitEndOfModule(b)
    case EnterBlockScope => VisitEnterBlockScope(b)
    case EnterWithScope => VisitEnterWithScope(b)
    case EnterClassScope => VisitEnterClassScope(b)
    case EnterForScope => VisitEnterForScope(b)
    case EnterFunctionScope => VisitEnterFunctionScope(b)
    case EnterFunctionScopeBody => VisitEnterFunctionScopeBody(b)
    case EnterNamedFunctionScope(name) => VisitEnterNamedFunctionScope(b, name)
    case ExitBlockScope => VisitExitBlockScope(b)
    case ExitWithScope => VisitExitWithScope(b)
    case ExitClassScope => VisitExitClassScope(b)
    case ExitForScope => VisitExitForScope(b)
    case ExitFunctionScope => VisitExitFunctionScope(b)
    case KeywordVariableUse(name) => VisitKeywordVariableUse(b, name)
    case PropertyDeclaration(optionalName) => VisitPropertyDeclaration(b, optionalName)
    case VariableAssignment(name) => VisitVariableAssignment(b, name)
    case VariableDeclaration(name, kind, initKind) => VisitVariableDeclaration(b, name, kind, initKind)
    case VariableDeleteUse(name, deleteKeyword) => VisitVariableDeleteUse(b, name, deleteKeyword)
    case VariableExportUse(name) => VisitVariableExportUse(b, name)
    case VariableTypeUse(name) => VisitVariableTypeUse(b, name)
    case VariableTypeofUse(name) => VisitVariableTypeofUse(b, name)
    case VariableUse(name) => VisitVariableUse(b, name)
  }

  /** The producer making `calls`, in order, on `b`: earlier records are
      kept, and the i-th new record is the one the i-th call is stored as. */
  function RecordAll(b: BufferingVisitor, calls: seq<PV.VisitorCall>): (r: BufferingVisitor)
    ensures |r.visits| == |b.visits| + |calls|
    ensures r.visits[..|b.visits|] == b.visits
    ensures forall i :: 0 <= i < |calls| ==> r.visits[|b.visits| + i] == Recorded(calls[i])
    decreases |calls|
  {
    if |calls| == 0 then b
    else
      var prefix := RecordAll(b, calls[..|calls| - 1]);
      var r := Receive(prefix, calls[|calls| - 1]);
      var n := |b.visits|;
      assert r.visits[..n] == b.visits by {
        assert r.visits[..n] == r.visits[..|prefix.visits|][..n];
      }
      assert forall i :: 0 <= i < |calls| ==> r.visits[n + i] == Recorded(calls[i]) by {
        forall i | 0 <= i < |calls|
          ensures r.visits[n + i] == Recorded(calls[i])
        {
          if i < |calls| - 1 {
            assert r.visits[n + i] == prefix.visits[n + i];
            assert calls[i] == calls[..|calls| - 1][i];
          }
        }
      }
      r
  }

  /** The calls a buffer replays, first record first. */
  function ReplayAll(visits: seq<Visit>): (calls: seq<PV.VisitorCall>)
    requires forall i :: 0 <= i < |visits| ==> WellFormed(visits[i])
    ensures |calls| == |visits|
    ensures forall i :: 0 <= i < |visits| ==> Recorded(calls[i]) == visits[i]
  {
    if |visits| == 0 then []
    else
      RecordedReplayed(visits[0]);
      [Replayed(visits[0])] + ReplayAll(visits[1..])
  }

  /** Replaying `b` into a target that has already received `target`. The
      buffer is left as it is (the program's `copy_into` is a const member);
      what the target receives, recorded by a fresh buffering visitor,
      reproduces `b` exactly. */
  function CopyInto(b: BufferingVisitor, target: seq<PV.VisitorCall>): (r: seq<PV.VisitorCall>)
    requires b.Valid()
    ensures |r| == |target| + |b.visits|
    ensures r[..|target|] == target
    ensures RecordAll(New(), r[|target|..]) == b
  {
    var replay := ReplayAll(b.visits);
    var again := RecordAll(New(), replay);
    forall i | 0 <= i < |b.visits|
      ensures again.visits[i] == b.visits[i]
    {
      assert again.visits[|New().visits| + i] == Recorded(replay[i]);
    }
    assert again.visits == b.visits;
    assert (target + replay)[|target|..] == replay;
    target + replay
  }

  /** Replaying `b` by moving out of it: the target receives what a copy
      would have given it, and the recorder is left empty and reusable. */
  function MoveInto(b: BufferingVisitor, target: seq<PV.VisitorCall>): (r: (BufferingVisitor, seq<PV.VisitorCall>))
    requires b.Valid()
    ensures r.0.visits == []
    ensures r.1 == CopyInto(b, target)
  {
    (New(), CopyInto(b, target))
  }

  /** Storing calls is one-to-one: distinct calls are stored as distinct
      records. */
  lemma RecordedInjective(c: PV.VisitorCall, d: PV.VisitorCall)
    requires Recorded(c) == Recorded(d)
    ensures c == d
  {
    assert Replayed(Recorded(c)) == c;
  }

  /** Order preservation: replaying what a fresh recorder was given yields
      exactly the calls that were made, in the order they were made. */
  lemma {:induction false} RecordThenReplay(calls: seq<PV.VisitorCall>)
    ensures RecordAll(New(), calls).Valid()
    ensures CopyInto(RecordAll(New(), calls), []) == calls
  {
    var b := RecordAll(New(), calls);
    forall i | 0 <= i < |calls|
      ensures WellFormed(b.visits[i])
    {
      assert b.visits[|New().visits| + i] == Recorded(calls[i]);
    }
    var r := CopyInto(b, []);
    assert r[0..] == r;
    RecordAllInjective(r, calls);
  }

  /** Two runs of calls that a fresh recorder stores identically are the
      same run. */
  lemma RecordAllInjective(xs: seq<PV.VisitorCall>, ys: seq<PV.VisitorCall>)
    requires RecordAll(New(), xs) == RecordAll(New(), ys)
    ensures xs == ys
  {
    var stored := RecordAll(New(), xs).visits;
    assert stored == RecordAll(New(), ys).visits;
    var n := |New().visits|;
    forall i | 0 <= i < |xs|
      ensures xs[i] == ys[i]
    {
      assert Recorded(xs[i]) == stored[n + i] == Recorded(ys[i]);
      RecordedInjective(xs[i], ys[i]);
    }
  }

  /** What a recorder stores for a run of calls does not depend on what it
      held before: it is appended after the earlier records. */
  lemma {:induction false} RecordAllAppends(b: BufferingVisitor, calls: seq<PV.VisitorCall>)
    ensures RecordAll(b, calls).visits == b.visits + RecordAll(New(), calls).visits
    decreases |calls|
  {
    if |calls| > 0 {
      var init := calls[..|calls| - 1];
      var last := Recorded(calls[|calls| - 1]);
      RecordAllAppends(b, init);
      assert RecordAll(b, calls).visits == RecordAll(b, init).visits + [last];
      assert RecordAll(New(), calls).visits == RecordAll(New(), init).visits + [last];
    }
  }

  /** Replaying one buffering visitor into another appends the first's
      records, unchanged, after the second's. */
  lemma CopyIntoRecorder(source: BufferingVisitor, destination: BufferingVisitor)
    requires source.Valid()
    ensures RecordAll(destination, CopyInto(source, [])).visits == destination.visits + source.visits
  {
    var calls := CopyInto(source, []);
    assert calls[0..] == calls;
    RecordAllAppends(destination, calls);
  }

  /** A second move replays nothing, and recording after a move starts a
      fresh sequence. */
  lemma MoveTwiceReplaysNothing(b: BufferingVisitor, target: seq<PV.VisitorCall>, calls: seq<PV.VisitorCall>)
    requires b.Valid()
    ensures MoveInto(b, target).0.Valid()
    ensures MoveInto(MoveInto(b, target).0, target).1 == target
    ensures RecordAll(MoveInto(b, target).0, calls) == RecordAll(New(), calls)
  {
    var emptied := MoveInto(b, target).0;
    assert emptied == New();
    var again := CopyInto(emptied, target);
    assert again == again[..|target|];
  }
}
