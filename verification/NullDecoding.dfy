/**
 Decoding returns a value or an error, or panics.  It panics on a literal null where a message or
 an artifact is expected by value: exactly when, for every input.
 */
module NullDecoding {
  import opened Wrappers
  import opened Protocol
  import opened RoundTrip

  predicate Panics(e: DecodeError) {
    e.NilDereference? || ((e.InElement? || e.InMember?) && Panics(e.cause))
  }

  predicate Crashes<T>(r: Decoded<T>) { r.Failure? && Panics(r.error) }

  // ---------------------------------------------------------------------------------------
  // One message, one artifact

  lemma PartReturns(j: JSON)
    ensures !Crashes(DecodePart(j))
  {
  }

  lemma {:induction false} PartsReturn(items: seq<JSON>, index: nat)
    ensures !Crashes(DecodeParts(items, index))
    decreases |items|
  {
    if items != [] {
      PartReturns(items[0]);
      PartsReturn(items[1..], index + 1);
    }
  }

  lemma MembersReturn(o: Fields)
    ensures !Crashes(DecodeMessageBase(o)) && !Crashes(DecodeArtifactBase(o)) && !Crashes(GetParts(o))
  {
    var raw := RawParts(o);
    if raw.Success? {
      PartsReturn(raw.value, 0);
    }
  }

  /** Decoding a message, or an artifact, panics on null and on nothing else. */
  lemma OnlyNullPanics(j: JSON)
    ensures Crashes(DecodeMessage(j)) <==> j.Null?
    ensures Crashes(DecodeArtifact(j)) <==> j.Null?
  {
    if j.Object? {
      MembersReturn(j.fields);
    }
  }

  // ---------------------------------------------------------------------------------------
  // Lists of them

  predicate DecodesAs(j: JSON, n: Name) {
    if n == HistoryName then DecodeMessage(j).Success? else DecodeArtifact(j).Success?
  }

  /** There is a null in the list, and what is before it decodes. */
  predicate NullComesFirst(items: seq<JSON>, n: Name)
    decreases |items|
  {
    items != [] && (items[0].Null? || (DecodesAs(items[0], n) && NullComesFirst(items[1..], n)))
  }

  predicate AllDecode(items: seq<JSON>, n: Name) { forall i :: 0 <= i < |items| ==> DecodesAs(items[i], n) }

  lemma AllDecodeSplit(items: seq<JSON>, n: Name)
    requires items != []
    ensures AllDecode(items, n) <==> DecodesAs(items[0], n) && AllDecode(items[1..], n)
  {
    assert forall i :: 0 < i < |items| ==> items[i] == items[1..][i - 1];
  }

  lemma {:induction false} MessagesPanic(items: seq<JSON>, index: nat)
    ensures Crashes(DecodeMessages(items, index)) <==> NullComesFirst(items, HistoryName)
    ensures DecodeMessages(items, index).Success? <==> AllDecode(items, HistoryName)
    ensures DecodeMessages(items, index).Failure? ==> Aborting(DecodeMessages(items, index).error)
    decreases |items|
  {
    if items != [] {
      OnlyNullPanics(items[0]);
      MessagesPanic(items[1..], index + 1);
      AllDecodeSplit(items, HistoryName);
    }
  }

  lemma {:induction false} ArtifactsPanic(items: seq<JSON>, index: nat)
    ensures Crashes(DecodeArtifacts(items, index)) <==> NullComesFirst(items, ArtifactsName)
    ensures DecodeArtifacts(items, index).Success? <==> AllDecode(items, ArtifactsName)
    ensures DecodeArtifacts(items, index).Failure? ==> Aborting(DecodeArtifacts(items, index).error)
    decreases |items|
  {
    if items != [] {
      OnlyNullPanics(items[0]);
      ArtifactsPanic(items[1..], index + 1);
      AllDecodeSplit(items, ArtifactsName);
    }
  }

  // ---------------------------------------------------------------------------------------
  // A task

  /** A list of messages or artifacts of the task. */
  predicate IsList(o: Fields, n: Name) { (n == HistoryName || n == ArtifactsName) && Get(o, n).Array? }

  /** The member ends the decoding with a panic. */
  predicate PanicsAt(o: Fields, n: Name) { IsList(o, n) && NullComesFirst(Get(o, n).items, n) }

  /** The member ends the decoding: an element that does not decode, or the message of the status. */
  predicate EndsAt(o: Fields, n: Name) {
    || (IsList(o, n) && !AllDecode(Get(o, n).items, n))
    || (n == StatusName && Get(o, n).Object? && !Get(Get(o, n).fields, MessageName).Null?
        && DecodeMessage(Get(Get(o, n).fields, MessageName)).Failure?)
  }

  lemma ListAborts(o: Fields, n: Name)
    requires n == HistoryName || n == ArtifactsName
    ensures Abort(o, n).Some? <==> EndsAt(o, n)
    ensures Abort(o, n).Some? ==> (Panics(Abort(o, n).value) <==> PanicsAt(o, n))
  {
    if Get(o, n).Array? {
      MessagesPanic(Get(o, n).items, 0);
      ArtifactsPanic(Get(o, n).items, 0);
    }
  }

  lemma StatusAborts(o: Fields)
    ensures Abort(o, StatusName).Some? <==> EndsAt(o, StatusName)
    ensures Abort(o, StatusName).Some? ==> !Panics(Abort(o, StatusName).value)
  {
    if Get(o, StatusName).Object? && !Get(Get(o, StatusName).fields, MessageName).Null? {
      OnlyNullPanics(Get(Get(o, StatusName).fields, MessageName));
    }
  }

  lemma AbortIsEnd(o: Fields, n: Name)
    ensures Abort(o, n).Some? <==> EndsAt(o, n)
    ensures Abort(o, n).Some? ==> (Panics(Abort(o, n).value) <==> PanicsAt(o, n))
    ensures PanicsAt(o, n) ==> EndsAt(o, n)
  {
    if n == HistoryName || n == ArtifactsName {
      ListAborts(o, n);
      if IsList(o, n) {
        NullDoesNotDecode(Get(o, n).items, n);
      }
    } else if n == StatusName {
      StatusAborts(o);
    }
  }

  lemma {:induction false} NullDoesNotDecode(items: seq<JSON>, n: Name)
    ensures NullComesFirst(items, n) ==> !AllDecode(items, n)
    decreases |items|
  {
    if items != [] {
      AllDecodeSplit(items, n);
      NullDoesNotDecode(items[1..], n);
    }
  }

  /** Of the members that end the decoding the first one panics. */
  predicate PanicComesFirst(o: Fields, order: seq<Name>)
    decreases |order|
  {
    order != [] && (PanicsAt(o, order[0]) || (!EndsAt(o, order[0]) && PanicComesFirst(o, order[1..])))
  }

  predicate NoneEnds(o: Fields, order: seq<Name>) { forall k :: 0 <= k < |order| ==> !EndsAt(o, order[k]) }

  lemma NoneEndsSplit(o: Fields, order: seq<Name>)
    requires order != []
    ensures NoneEnds(o, order) <==> !EndsAt(o, order[0]) && NoneEnds(o, order[1..])
  {
    assert forall k :: 0 < k < |order| ==> order[k] == order[1..][k - 1];
  }

  lemma {:induction false} FirstAbortPanics(o: Fields, order: seq<Name>)
    ensures FirstAbort(o, order).Some? <==> !NoneEnds(o, order)
    ensures FirstAbort(o, order).Some? && Panics(FirstAbort(o, order).value) <==> PanicComesFirst(o, order)
    decreases |order|
  {
    if order != [] {
      AbortIsEnd(o, order[0]);
      FirstAbortPanics(o, order[1..]);
      NoneEndsSplit(o, order);
    }
  }

  lemma KeptErrorsReturn(o: Fields)
    requires !EndsAt(o, ArtifactsName) && !EndsAt(o, HistoryName) && !EndsAt(o, StatusName)
    ensures !Crashes(GetArtifacts(o)) && !Crashes(GetMessages(o)) && !Crashes(GetStatus(o))
  {
    if Get(o, ArtifactsName).Array? {
      ArtifactsPanic(Get(o, ArtifactsName).items, 0);
    }
    if Get(o, HistoryName).Array? {
      MessagesPanic(Get(o, HistoryName).items, 0);
    }
    StatusReturns(o);
  }

  lemma StatusReturns(o: Fields)
    ensures !Crashes(GetStatus(o))
  {
    if Get(o, StatusName).Object? && !Get(Get(o, StatusName).fields, MessageName).Null? {
      OnlyNullPanics(Get(Get(o, StatusName).fields, MessageName));
    }
  }

  /** Decoding a task panics if and only if a list with a null, what is before the null decoding,
      comes before every other member that ends the decoding. */
  lemma TaskPanics(o: Fields, order: seq<Name>)
    ensures Crashes(DecodeTask(o, order)) <==> PanicComesFirst(o, InOrder(order))
  {
    var names := InOrder(order);
    FirstAbortPanics(o, names);
    if NoneEnds(o, names) {
      var k := |order|;
      assert names[k] == ArtifactsName && names[k + 1] == HistoryName && names[k + 2] == StatusName;
      KeptErrorsReturn(o);
    } else {
      SomeMemberFails(o, names);
    }
  }

  lemma SomeMemberFails(o: Fields, names: seq<Name>)
    requires !NoneEnds(o, names)
    ensures GetArtifacts(o).Failure? || GetMessages(o).Failure? || GetStatus(o).Failure?
  {
    var k :| 0 <= k < |names| && EndsAt(o, names[k]);
    AbortIsEnd(o, names[k]);
  }

  // ---------------------------------------------------------------------------------------
  // Events and results

  function KindIn(o: Fields): string { if Get(o, KindName).String? then Get(o, KindName).s else "" }

  /** What the decoder of streaming events panics on. */
  predicate EventPanicsOn(j: JSON, order: seq<Name>) {
    var actual := Unwrap(j);
    actual.Object? &&
    var o := actual.fields;
    || (KindIn(o) == KIND_TASK && PanicComesFirst(o, InOrder(order)))
    || (KindIn(o) == KIND_ARTIFACT_UPDATE && ArtifactName in o && o[ArtifactName].Null?)
  }

  /** What the decoder of unary replies panics on. */
  predicate ResultPanicsOn(j: JSON, order: seq<Name>) {
    j.Object? && KindIn(j.fields) == KIND_TASK && PanicComesFirst(j.fields, InOrder(order))
  }

  lemma ArtifactEventPanics(o: Fields)
    ensures Crashes(DecodeArtifactEvent(o)) <==> ArtifactName in o && o[ArtifactName].Null?
  {
    if ArtifactName in o {
      OnlyNullPanics(o[ArtifactName]);
    }
  }

  lemma StatusEventReturns(o: Fields)
    ensures !Crashes(DecodeStatusEvent(o))
  {
    StatusReturns(o);
  }

  /** What the decoders do once they have the kind. */
  lemma TaskByKind(j: JSON, order: seq<Name>)
    requires Unwrap(j).Object? && KindIn(Unwrap(j).fields) == KIND_TASK
    ensures Crashes(DecodeEvent(j, order)) <==> Crashes(DecodeTask(Unwrap(j).fields, order))
  {
    KindsDiffer();
  }

  lemma StatusByKind(j: JSON, order: seq<Name>)
    requires Unwrap(j).Object? && KindIn(Unwrap(j).fields) == KIND_STATUS_UPDATE
    ensures !Crashes(DecodeEvent(j, order))
  {
    KindsDiffer();
    StatusEventReturns(Unwrap(j).fields);
  }

  lemma ArtifactByKind(j: JSON, order: seq<Name>)
    requires Unwrap(j).Object? && KindIn(Unwrap(j).fields) == KIND_ARTIFACT_UPDATE
    ensures Crashes(DecodeEvent(j, order)) <==> Crashes(DecodeArtifactEvent(Unwrap(j).fields))
  {
    KindsDiffer();
  }

  lemma OtherByKind(j: JSON, order: seq<Name>)
    requires Unwrap(j).Object? ==> KindIn(Unwrap(j).fields) !in {KIND_TASK, KIND_STATUS_UPDATE, KIND_ARTIFACT_UPDATE}
    ensures !Crashes(DecodeEvent(j, order))
  {
    OnlyNullPanics(Unwrap(j));
  }

  /** The decoder of streaming events returns a value or an error on every other input. */
  lemma EventPanics(j: JSON, order: seq<Name>)
    ensures Crashes(DecodeEvent(j, order)) <==> EventPanicsOn(j, order)
  {
    KindsDiffer();
    if Unwrap(j).Object? && KindIn(Unwrap(j).fields) == KIND_TASK {
      TaskByKind(j, order);
      TaskPanics(Unwrap(j).fields, order);
    } else if Unwrap(j).Object? && KindIn(Unwrap(j).fields) == KIND_STATUS_UPDATE {
      StatusByKind(j, order);
    } else if Unwrap(j).Object? && KindIn(Unwrap(j).fields) == KIND_ARTIFACT_UPDATE {
      ArtifactByKind(j, order);
      ArtifactEventPanics(Unwrap(j).fields);
    } else {
      OtherByKind(j, order);
    }
  }

  lemma ResultPanics(j: JSON, order: seq<Name>)
    ensures Crashes(DecodeResult(j, order)) <==> ResultPanicsOn(j, order)
  {
    KindsDiffer();
    if j.Object? {
      OnlyNullPanics(j);
      TaskPanics(j.fields, order);
    }
  }

  // ---------------------------------------------------------------------------------------
  // Without the order

  predicate HasNull(items: seq<JSON>) { exists i :: 0 <= i < |items| && items[i].Null? }

  predicate NullIn(o: Fields, n: Name) { IsList(o, n) && HasNull(Get(o, n).items) }

  /** A null where a message or an artifact is expected by value. */
  predicate NullWhereValue(o: Fields) {
    || (KindIn(o) == KIND_TASK && (NullIn(o, HistoryName) || NullIn(o, ArtifactsName)))
    || (KindIn(o) == KIND_ARTIFACT_UPDATE && ArtifactName in o && o[ArtifactName].Null?)
  }

  /** Apart from nulls, everything nested in a task decodes. */
  predicate RestDecodes(o: Fields) {
    && ListDecodes(o, HistoryName) && ListDecodes(o, ArtifactsName) && !EndsAt(o, StatusName)
  }

  predicate ListDecodes(o: Fields, n: Name) {
    IsList(o, n) ==>
      forall i :: 0 <= i < |Get(o, n).items| ==> Get(o, n).items[i].Null? || DecodesAs(Get(o, n).items[i], n)
  }

  lemma {:induction false} FirstNullIsNull(items: seq<JSON>, n: Name)
    requires NullComesFirst(items, n)
    ensures HasNull(items)
    decreases |items|
  {
    if !items[0].Null? {
      FirstNullIsNull(items[1..], n);
      var i :| 0 <= i < |items[1..]| && items[1..][i].Null?;
      assert items[i + 1].Null?;
    }
  }

  lemma {:induction false} PanicNeedsNull(o: Fields, order: seq<Name>)
    requires PanicComesFirst(o, order)
    ensures NullIn(o, HistoryName) || NullIn(o, ArtifactsName)
    decreases |order|
  {
    if PanicsAt(o, order[0]) {
      FirstNullIsNull(Get(o, order[0]).items, order[0]);
    } else {
      PanicNeedsNull(o, order[1..]);
    }
  }

  /** Without such a null nothing panics, whatever the order of the members. */
  lemma WithoutNullItReturns(j: JSON, order: seq<Name>)
    ensures (Unwrap(j).Object? ==> !NullWhereValue(Unwrap(j).fields)) ==> !Crashes(DecodeEvent(j, order))
    ensures (j.Object? ==> !NullWhereValue(j.fields)) ==> !Crashes(DecodeResult(j, order))
  {
    EventPanics(j, order);
    ResultPanics(j, order);
    if Unwrap(j).Object? && PanicComesFirst(Unwrap(j).fields, InOrder(order)) {
      PanicNeedsNull(Unwrap(j).fields, InOrder(order));
    }
    if j.Object? && PanicComesFirst(j.fields, InOrder(order)) {
      PanicNeedsNull(j.fields, InOrder(order));
    }
  }

  lemma {:induction false} FirstNull(items: seq<JSON>, n: Name)
    requires HasNull(items) && forall i :: 0 <= i < |items| ==> items[i].Null? || DecodesAs(items[i], n)
    ensures NullComesFirst(items, n)
    decreases |items|
  {
    if !items[0].Null? {
      var i :| 0 <= i < |items| && items[i].Null?;
      assert items[1..][i - 1].Null?;
      FirstNull(items[1..], n);
    }
  }

  lemma EndsOnlyAtNulls(o: Fields, n: Name)
    requires RestDecodes(o)
    ensures EndsAt(o, n) ==> PanicsAt(o, n)
    ensures NullIn(o, n) ==> PanicsAt(o, n)
  {
    if IsList(o, n) && HasNull(Get(o, n).items) {
      FirstNull(Get(o, n).items, n);
    }
  }

  lemma {:induction false} SomePanic(o: Fields, order: seq<Name>, k: nat)
    requires RestDecodes(o) && k < |order| && NullIn(o, order[k])
    ensures PanicComesFirst(o, order)
    decreases |order|
  {
    EndsOnlyAtNulls(o, order[0]);
    if !PanicsAt(o, order[0]) {
      SomePanic(o, order[1..], k - 1);
    }
  }

  lemma TaskWithNullPanics(o: Fields, order: seq<Name>)
    requires KindIn(o) == KIND_TASK && NullWhereValue(o) && RestDecodes(o)
    ensures PanicComesFirst(o, InOrder(order))
  {
    var names, k := InOrder(order), |order|;
    KindsDiffer();
    assert names[k] == ArtifactsName && names[k + 1] == HistoryName;
    SomePanic(o, names, if NullIn(o, ArtifactsName) then k else k + 1);
  }

  /** With such a null, and everything else that is nested decoding, it panics in every order of the
      members, and in spite of type errors in others. */
  lemma WithNullItPanics(j: JSON, order: seq<Name>)
    requires Unwrap(j).Object? && NullWhereValue(Unwrap(j).fields)
    requires KindIn(Unwrap(j).fields) == KIND_TASK ==> RestDecodes(Unwrap(j).fields)
    ensures Crashes(DecodeEvent(j, order))
    ensures j == Unwrap(j) && KindIn(j.fields) == KIND_TASK ==> Crashes(DecodeResult(j, order))
  {
    EventPanics(j, order);
    ResultPanics(j, order);
    if KindIn(Unwrap(j).fields) == KIND_TASK {
      TaskWithNullPanics(Unwrap(j).fields, order);
    }
  }

  // ---------------------------------------------------------------------------------------
  // Inputs

  function TaskWith(n: Name, items: seq<JSON>): JSON {
    Object(map[KindName := String(KIND_TASK), n := Array(items)])
  }

  lemma OneNullPanics(o: Fields, n: Name, order: seq<Name>)
    requires KindIn(o) == KIND_TASK && Get(o, n) == Array([Null]) && (n == HistoryName || n == ArtifactsName)
    requires forall m :: m in o ==> m in {KindName, ContextIdName, n}
    ensures Crashes(DecodeEvent(Object(o), order)) && Crashes(DecodeResult(Object(o), order))
  {
    assert [Null][0].Null? && NullIn(o, n);
    WithNullItPanics(Object(o), order);
  }

  /** A task whose history or whose artifacts are a list of one null, and a task in which another
      member has the wrong type besides. */
  lemma NullsPanic(order: seq<Name>)
    ensures Crashes(DecodeEvent(TaskWith(HistoryName, [Null]), order))
    ensures Crashes(DecodeResult(TaskWith(HistoryName, [Null]), order))
    ensures Crashes(DecodeEvent(TaskWith(ArtifactsName, [Null]), order))
    ensures Crashes(DecodeEvent(Object(TaskWith(HistoryName, [Null]).fields[ContextIdName := Bool(true)]), order))
  {
    OneNullPanics(TaskWith(HistoryName, [Null]).fields, HistoryName, order);
    OneNullPanics(TaskWith(ArtifactsName, [Null]).fields, ArtifactsName, order);
    OneNullPanics(TaskWith(HistoryName, [Null]).fields[ContextIdName := Bool(true)], HistoryName, order);
  }

  lemma NullArtifactPanics(order: seq<Name>)
    ensures Crashes(DecodeEvent(Object(map[KindName := String(KIND_ARTIFACT_UPDATE), ArtifactName := Null]), order))
  {
    KindsDiffer();
    WithNullItPanics(Object(map[KindName := String(KIND_ARTIFACT_UPDATE), ArtifactName := Null]), order);
  }

  /** A null in the history and an artifact that does not decode: which comes first decides. */
  lemma TheOrderDecides()
    ensures var j := Object(map[KindName := String(KIND_TASK), HistoryName := Array([Null]),
                                ArtifactsName := Array([Bool(true)])]);
      Crashes(DecodeEvent(j, [HistoryName, ArtifactsName])) && !Crashes(DecodeEvent(j, [ArtifactsName, HistoryName]))
  {
    var o := map[KindName := String(KIND_TASK), HistoryName := Array([Null]), ArtifactsName := Array([Bool(true)])];
    var one, other := InOrder([HistoryName, ArtifactsName]), InOrder([ArtifactsName, HistoryName]);
    assert [Null][0].Null? && [Bool(true)][0].Bool?;
    assert !AllDecode([Bool(true)], ArtifactsName);
    EventPanics(Object(o), [HistoryName, ArtifactsName]);
    EventPanics(Object(o), [ArtifactsName, HistoryName]);
    assert one[0] == HistoryName && other[0] == ArtifactsName;
  }
}
