/**
 The H.264 start-code scanners of the video channel, against the byte stream format of
 Annex B of ITU-T H.264.
 */
module H264 {
  import opened Bytes

  /** A NAL header byte: the byte right after 00 00 01. */
  predicate IsHeader(data: seq<byte>, p: int) {
    3 <= p < |data| && data[p - 3] == 0 && data[p - 2] == 0 && data[p - 1] == 1
  }

  function NalType(header: byte): (t: nat)
    ensures t < 32
  {
    header % 32
  }

  predicate IsVcl(t: nat) {
    1 <= t <= 5
  }

  /** The NAL types found before position n, in stream order. */
  function Types(data: seq<byte>, n: nat): seq<nat>
    requires n <= |data|
  {
    if n == 0 then []
    else Types(data, n - 1) + if IsHeader(data, n - 1) then [NalType(data[n - 1])] else []
  }

  predicate HasVcl(data: seq<byte>) {
    exists p :: 0 <= p < |data| && IsHeader(data, p) && IsVcl(NalType(data[p]))
  }

  /** Keep the first occurrence of every value. */
  function Distinct(types: seq<nat>): seq<nat> {
    if |types| == 0 then []
    else
      var kept := Distinct(types[..|types| - 1]);
      var last := types[|types| - 1];
      if last in kept then kept else kept + [last]
  }

  lemma {:induction false} DistinctMeaning(types: seq<nat>)
    ensures forall t :: t in Distinct(types) <==> t in types
    ensures forall i, j :: 0 <= i < j < |Distinct(types)| ==> Distinct(types)[i] != Distinct(types)[j]
  {
    if |types| > 0 {
      DistinctMeaning(types[..|types| - 1]);
      assert types == types[..|types| - 1] + [types[|types| - 1]];
    }
  }

  /** Distinct values keep the order of their first occurrences. */
  lemma {:induction false} DistinctOrder(types: seq<nat>, more: seq<nat>)
    ensures Distinct(types) <= Distinct(types + more)
  {
    if |more| == 0 {
      assert types + more == types;
    } else {
      var n := |more| - 1;
      assert (types + more)[..|types + more| - 1] == types + more[..n];
      DistinctOrder(types, more[..n]);
    }
  }

  // ----- the scanners -----

  /** The payload position the loop body derives at index, or -1. */
  function PayloadAt(data: seq<byte>, index: nat): int
    requires index + 3 < |data|
  {
    if data[index] == 0 && data[index + 1] == 0 then
      if data[index + 2] == 1 then index + 3
      else if index + 4 <= |data| && data[index + 2] == 0 && data[index + 3] == 1 then index + 4
      else -1
    else -1
  }

  /** The four-byte branch finds only what the three-byte branch finds one step later. */
  lemma FourByteBranchIsRedundant(data: seq<byte>, index: nat)
    requires index + 3 < |data|
    requires PayloadAt(data, index) == index + 4 < |data|
    ensures PayloadAt(data, index + 1) == index + 4 && IsHeader(data, index + 4)
  {
  }

  method ContainsVclNal(data: seq<byte>) returns (found: bool)
    ensures found <==> HasVcl(data)
  {
    var index := 0;
    while index + 3 < |data|
      invariant 0 <= index
      invariant forall p :: IsHeader(data, p) && p < index + 3 ==> !IsVcl(NalType(data[p]))
    {
      var payload := PayloadAt(data, index);
      if payload >= 0 && payload < |data| {
        assert IsHeader(data, payload);
        var nalType := data[payload] % 32;
        if nalType >= 1 && nalType <= 5 {
          return true;
        }
      }
      index := index + 1;
    }
    return false;
  }

  method NalTypeSummary(data: seq<byte>) returns (types: seq<nat>)
    ensures types == Distinct(Types(data, |data|))
  {
    hide Types, Distinct, PayloadAt;
    DistinctOfNothing();
    types := [];
    var index := 0;
    // True when the four-byte branch has already reported the next header.
    ghost var ahead := false;
    TypesStart(data, if |data| < 3 then |data| else 3);
    while index + 3 < |data|
      invariant 0 <= index && (index == 0 || index + 3 <= |data|)
      invariant ahead ==> IsHeader(data, index + 3)
      invariant |data| < 3 ==> types == []
      invariant |data| >= 3 ==> types == Distinct(Types(data, if ahead then index + 4 else index + 3))
    {
      var payload := PayloadAt(data, index);
      SummaryStep(data, index);
      ahead := false;
      if payload >= 0 && payload < |data| {
        var nalType := data[payload] % 32;
        DistinctAppend(Types(data, index + 3), NalType(data[payload]));
        if nalType !in types {
          types := types + [nalType];
        }
        ahead := payload == index + 4;
      }
      index := index + 1;
    }
  }

  /** What one loop turn may add to the summary. */
  lemma SummaryStep(data: seq<byte>, index: nat)
    requires index + 3 < |data|
    ensures var payload := PayloadAt(data, index);
            var before := Types(data, index + 3);
            if IsHeader(data, index + 3) then
              && payload == index + 3
              && Types(data, index + 4) == before + [NalType(data[index + 3])]
            else
              && Types(data, index + 4) == before
              && (payload == -1 || payload == index + 4)
              && (payload == index + 4 < |data| ==>
                    && IsHeader(data, index + 4)
                    && Types(data, index + 5) == before + [NalType(data[index + 4])])
  {
    assert Types(data, index + 4) ==
      Types(data, index + 3) + if IsHeader(data, index + 3) then [NalType(data[index + 3])] else [];
  }

  lemma DistinctOfNothing()
    ensures Distinct([]) == []
  {
  }

  lemma DistinctAppend(types: seq<nat>, t: nat)
    ensures Distinct(types + [t]) == if t in Distinct(types) then Distinct(types) else Distinct(types) + [t]
  {
    assert (types + [t])[..|types|] == types;
  }

  lemma {:induction false} TypesStart(data: seq<byte>, n: nat)
    requires n <= |data| && n <= 3
    ensures Types(data, n) == []
  {
    if n > 0 {
      TypesStart(data, n - 1);
    }
  }

  lemma {:induction false} TypesAreHeaders(data: seq<byte>, n: nat)
    requires n <= |data|
    ensures forall t :: t in Types(data, n) <==> exists p :: 0 <= p < n && IsHeader(data, p) && NalType(data[p]) == t
  {
    if n > 0 {
      TypesAreHeaders(data, n - 1);
      forall t ensures t in Types(data, n) <==> exists p :: 0 <= p < n && IsHeader(data, p) && NalType(data[p]) == t {
        if t in Types(data, n) && t !in Types(data, n - 1) {
          assert IsHeader(data, n - 1) && NalType(data[n - 1]) == t;
        }
      }
    }
  }

  /** On arbitrary bytes the VCL test and the summary agree. */
  lemma VclIffSummaryHasVcl(data: seq<byte>)
    ensures HasVcl(data) <==> exists t :: t in Distinct(Types(data, |data|)) && IsVcl(t)
  {
    TypesAreHeaders(data, |data|);
    DistinctMeaning(Types(data, |data|));
    if HasVcl(data) {
      var p :| 0 <= p < |data| && IsHeader(data, p) && IsVcl(NalType(data[p]));
      assert NalType(data[p]) in Distinct(Types(data, |data|));
    }
  }

  // ----- the byte stream format -----

  /** A NAL unit and the length of the start code in front of it. */
  datatype Unit = Unit(bytes: seq<byte>, longCode: bool)

  predicate WellFormed(unit: Unit) {
    && |unit.bytes| > 0
    && forall i :: 0 <= i && i + 2 < |unit.bytes| ==>
         !(unit.bytes[i] == 0 && unit.bytes[i + 1] == 0 && unit.bytes[i + 2] == 1)
  }

  function StartCode(longCode: bool): seq<byte> {
    if longCode then [0, 0, 0, 1] else [0, 0, 1]
  }

  function Serialize(units: seq<Unit>): seq<byte> {
    if |units| == 0 then []
    else
      var last := units[|units| - 1];
      Serialize(units[..|units| - 1]) + (StartCode(last.longCode) + last.bytes)
  }

  predicate AllWellFormed(units: seq<Unit>) {
    forall i :: 0 <= i < |units| ==> WellFormed(units[i])
  }

  function UnitType(unit: Unit): nat
    requires WellFormed(unit)
  {
    NalType(unit.bytes[0])
  }

  function UnitTypes(units: seq<Unit>): seq<nat>
    requires AllWellFormed(units)
  {
    if |units| == 0 then []
    else UnitTypes(units[..|units| - 1]) + [UnitType(units[|units| - 1])]
  }

  /** No start code is pending at the end of the data. */
  predicate Settled(data: seq<byte>) {
    |data| == 0 || (|data| >= 4 && !(data[|data| - 3] == 0 && data[|data| - 2] == 0 && data[|data| - 1] == 1))
  }

  lemma {:induction false} TypesPrefix(data: seq<byte>, more: seq<byte>, n: nat)
    requires n <= |data|
    ensures Types(data + more, n) == Types(data, n)
  {
    if n > 0 {
      TypesPrefix(data, more, n - 1);
    }
  }

  /** A start code and a unit add exactly one header: the unit's first byte. */
  lemma {:induction false} OneMoreUnit(data: seq<byte>, unit: Unit, n: nat)
    requires Settled(data) && WellFormed(unit)
    requires n <= |StartCode(unit.longCode)| + |unit.bytes|
    ensures Types(data + (StartCode(unit.longCode) + unit.bytes), |data| + n) ==
            Types(data, |data|) + if n > |StartCode(unit.longCode)| then [NalType(unit.bytes[0])] else []
  {
    var tail := StartCode(unit.longCode) + unit.bytes;
    var all, c := data + tail, |StartCode(unit.longCode)|;
    if n == 0 {
      TypesPrefix(data, tail, |data|);
    } else {
      OneMoreUnit(data, unit, n - 1);
      assert IsHeader(all, |data| + n - 1) == (n - 1 == c) by {
        hide Types;
        HeaderOfUnit(data, unit, n - 1);
      }
      assert all[|data| + n - 1] == tail[n - 1];
    }
  }

  lemma HeaderOfUnit(data: seq<byte>, unit: Unit, k: nat)
    requires Settled(data) && WellFormed(unit)
    requires k < |StartCode(unit.longCode)| + |unit.bytes|
    ensures IsHeader(data + (StartCode(unit.longCode) + unit.bytes), |data| + k) ==
            (k == |StartCode(unit.longCode)|)
  {
    var code := StartCode(unit.longCode);
    var tail := code + unit.bytes;
    var all, c, p := data + tail, |code|, |data| + k;
    if k > 0 { assert all[p - 1] == tail[k - 1]; }
    if k > 1 { assert all[p - 2] == tail[k - 2]; }
    if k > 2 { assert all[p - 3] == tail[k - 3]; }
    if k >= c + 3 {
      assert tail[k - 3] == unit.bytes[k - 3 - c] && tail[k - 2] == unit.bytes[k - 3 - c + 1]
        && tail[k - 1] == unit.bytes[k - 3 - c + 2];
    }
  }

  lemma {:induction false} SerializedIsSettled(units: seq<Unit>)
    requires AllWellFormed(units)
    ensures Settled(Serialize(units))
  {
    if |units| > 0 {
      var n := |units| - 1;
      SerializedIsSettled(units[..n]);
      var data, unit := Serialize(units[..n]), units[n];
      var tail := StartCode(unit.longCode) + unit.bytes;
      var all, m := Serialize(units), |unit.bytes|;
      assert all == data + tail;
      assert all[|all| - 1] == unit.bytes[m - 1];
      if m >= 3 {
        assert all[|all| - 2] == unit.bytes[m - 3 + 1] && all[|all| - 3] == unit.bytes[m - 3];
      } else if m == 2 {
        assert all[|all| - 2] == unit.bytes[0] && all[|all| - 3] == tail[|tail| - 3] == 1;
      } else {
        assert all[|all| - 2] == tail[|tail| - 2] == 1;
      }
    }
  }

  /** Scanning a serialized stream finds exactly the headers of its units, in order. */
  lemma {:induction false} ScanRecoversUnits(units: seq<Unit>)
    requires AllWellFormed(units)
    ensures Types(Serialize(units), |Serialize(units)|) == UnitTypes(units)
  {
    if |units| > 0 {
      var n := |units| - 1;
      ScanRecoversUnits(units[..n]);
      SerializedIsSettled(units[..n]);
      var unit := units[n];
      OneMoreUnit(Serialize(units[..n]), unit, |StartCode(unit.longCode)| + |unit.bytes|);
    }
  }

  /** Where the units begin in the stream: the positions of their first bytes. */
  function Starts(units: seq<Unit>): (starts: seq<nat>)
    ensures |starts| == |units|
  {
    if |units| == 0 then []
    else
      var init := units[..|units| - 1];
      Starts(init) + [|Serialize(init)| + |StartCode(units[|units| - 1].longCode)|]
  }

  lemma OneMoreHeader(data: seq<byte>, unit: Unit, p: int)
    requires Settled(data) && WellFormed(unit)
    ensures IsHeader(data + (StartCode(unit.longCode) + unit.bytes), p) <==>
            IsHeader(data, p) || p == |data| + |StartCode(unit.longCode)|
  {
    hide IsHeader, Settled;
    var tail := StartCode(unit.longCode) + unit.bytes;
    HeaderInside(data, p);
    HeaderInside(data + tail, p);
    HeaderBefore(data, tail, p);
    if |data| <= p < |data + tail| {
      HeaderOfUnit(data, unit, p - |data|);
    }
  }

  lemma StartsAppend(units: seq<Unit>, p: int)
    requires |units| > 0
    ensures var init, unit := units[..|units| - 1], units[|units| - 1];
            p in Starts(units) <==> p in Starts(init) || p == |Serialize(init)| + |StartCode(unit.longCode)|
  {
  }

  /** The headers of the stream stand exactly where its units begin. */
  lemma {:induction false} HeadersAreUnitStarts(units: seq<Unit>)
    requires AllWellFormed(units)
    ensures forall p :: IsHeader(Serialize(units), p) <==> p in Starts(units)
  {
    if |units| > 0 {
      var n := |units| - 1;
      var init, unit := units[..n], units[n];
      HeadersAreUnitStarts(init);
      SerializedIsSettled(init);
      assert Serialize(units) == Serialize(init) + (StartCode(unit.longCode) + unit.bytes);
      hide IsHeader, Settled, WellFormed, Serialize, Starts, StartCode;
      forall p ensures IsHeader(Serialize(units), p) <==> p in Starts(units) {
        OneMoreHeader(Serialize(init), unit, p);
        StartsAppend(units, p);
      }
    }
  }

  /** And what stands there is the first byte of the unit. */
  lemma {:induction false} StartsAreFirstBytes(units: seq<Unit>, i: nat)
    requires AllWellFormed(units) && i < |units|
    ensures Starts(units)[i] < |Serialize(units)| && Serialize(units)[Starts(units)[i]] == units[i].bytes[0]
  {
    var n := |units| - 1;
    var init, unit := units[..n], units[n];
    var data, tail := Serialize(init), StartCode(unit.longCode) + unit.bytes;
    assert Serialize(units) == data + tail;
    if i < n {
      StartsAreFirstBytes(init, i);
      assert Starts(units)[i] == Starts(init)[i] && units[i] == init[i];
    } else {
      var c := |StartCode(unit.longCode)|;
      assert (data + tail)[|data| + c] == tail[c] == unit.bytes[0];
    }
  }

  lemma HeaderInside(data: seq<byte>, p: int)
    ensures IsHeader(data, p) ==> 0 <= p < |data|
  {
  }

  lemma HeaderBefore(data: seq<byte>, more: seq<byte>, p: int)
    ensures p < |data| ==> (IsHeader(data + more, p) <==> IsHeader(data, p))
  {
  }

  lemma {:induction false} UnitTypesMembers(units: seq<Unit>)
    requires AllWellFormed(units)
    ensures forall t :: t in UnitTypes(units) <==>
              exists i :: 0 <= i < |units| && UnitType(units[i]) == t
  {
    if |units| > 0 {
      var n := |units| - 1;
      var init := units[..n];
      UnitTypesMembers(init);
      forall t ensures t in UnitTypes(units) <==>
                exists i :: 0 <= i < |units| && UnitType(units[i]) == t
      {
        if t in UnitTypes(units) {
          if t in UnitTypes(init) {
            var i :| 0 <= i < |init| && UnitType(init[i]) == t;
            assert units[i] == init[i];
          } else {
            assert UnitType(units[n]) == t;
          }
        }
        if i :| 0 <= i < |units| && UnitType(units[i]) == t {
          if i < n {
            assert init[i] == units[i];
          }
        }
      }
    }
  }

  /** The VCL test on a serialized stream: some unit is a slice (types 1 to 5). */
  lemma VclIffSliceUnit(units: seq<Unit>)
    requires AllWellFormed(units)
    ensures HasVcl(Serialize(units)) <==> exists i :: 0 <= i < |units| && IsVcl(UnitType(units[i]))
    ensures Distinct(Types(Serialize(units), |Serialize(units)|)) == Distinct(UnitTypes(units))
  {
    ScanRecoversUnits(units);
    UnitTypesMembers(units);
    VclIffSummaryHasVcl(Serialize(units));
    DistinctMeaning(UnitTypes(units));
    if HasVcl(Serialize(units)) {
      var t :| t in UnitTypes(units) && IsVcl(t);
    }
    if i :| 0 <= i < |units| && IsVcl(UnitType(units[i])) {
      assert UnitType(units[i]) in UnitTypes(units);
    }
  }
}
