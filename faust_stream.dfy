/** The "stations-stream" Faust application: every station record consumed from the
    `stations` topic gets a line colour, the colour is written into the
    `processed_stations` table under the station id, and a reduced record is sent to
    the `processed_stations` topic. */
module FaustStream {
  import opened Wrappers

  /** A record of the input topic. */
  datatype Station = Station(
    stopId: int,
    directionId: string,
    stopName: string,
    stationName: string,
    stationDescriptiveName: string,
    stationId: int,
    order: int,
    red: bool,
    blue: bool,
    green: bool)

  /** A record of the output topic. */
  datatype TransformedStation = TransformedStation(
    stationId: int,
    stationName: string,
    order: int,
    line: Option<string>)

  /** The table: station id to line colour; `None` is a stored value, not a missing key. */
  type Table = map<int, Option<string>>

  /** The line colour of a station. Red is tested first, then green, then blue, which is
      not the order in which the flags are declared. */
  function Line(s: Station): (line: Option<string>)
    ensures s.red ==> line == Some("red")
    ensures line == Some("green") <==> !s.red && s.green
    ensures line == Some("blue") <==> !s.red && !s.green && s.blue
    ensures line == None <==> !s.red && !s.green && !s.blue
  {
    if s.red then Some("red")
    else if s.green then Some("green")
    else if s.blue then Some("blue")
    else None
  }

  /** The flags of a station as a table of (colour, flag) pairs in precedence order. */
  function Precedence(s: Station): seq<(string, bool)> {
    [("red", s.red), ("green", s.green), ("blue", s.blue)]
  }

  /** The colour of the first pair whose flag is set, if any: a reference definition of
      a fixed-precedence choice. */
  function FirstSet(flags: seq<(string, bool)>): (r: Option<string>)
    ensures r.None? <==> forall i :: 0 <= i < |flags| ==> !flags[i].1
    ensures r.Some? ==> exists i :: 0 <= i < |flags| && flags[i] == (r.value, true) &&
                                    forall j :: 0 <= j < i ==> !flags[j].1
  {
    if flags == [] then None
    else if flags[0].1 then Some(flags[0].0)
    else
      var rest := FirstSet(flags[1..]);
      assert forall i :: 1 <= i < |flags| ==> flags[i] == flags[1..][i - 1];
      rest
  }

  /** The nested conditional of the agent is the first-set choice over red, green, blue. */
  lemma LineIsFirstSet(s: Station)
    ensures Line(s) == FirstSet(Precedence(s))
  {
    var p := Precedence(s);
    var p1, p2 := p[1..], p[2..];
    assert p1 == [("green", s.green), ("blue", s.blue)] && p1[1..] == p2;
    assert p2 == [("blue", s.blue)] && p2[1..] == [];
    assert FirstSet(p2) == if s.blue then Some("blue") else None;
    assert FirstSet(p1) == if s.green then Some("green") else FirstSet(p2);
  }

  /** The record sent to the output topic for one input record: the station's id, name
      and order, and the colour of its first set flag in the order red, green, blue. */
  function Transform(s: Station): (r: TransformedStation)
    ensures r.stationId == s.stationId && r.stationName == s.stationName && r.order == s.order
    ensures r.line == FirstSet(Precedence(s))
  {
    LineIsFirstSet(s);
    TransformedStation(s.stationId, s.stationName, s.order, Line(s))
  }

  /** The table after the records of `ss` have been written into `t`, in order: no key
      is ever removed, and every station seen has an entry. */
  function Apply(t: Table, ss: seq<Station>): (r: Table)
    decreases |ss|
    ensures t.Keys <= r.Keys
    ensures forall i :: 0 <= i < |ss| ==> ss[i].stationId in r
  {
    if ss == [] then t
    else
      var prefix, last := ss[..|ss| - 1], ss[|ss| - 1];
      assert forall i :: 0 <= i < |prefix| ==> prefix[i] == ss[i];
      Apply(t, prefix)[last.stationId := Line(last)]
  }

  /** The records sent to the output topic for the records of `ss`, in order. */
  function Emitted(ss: seq<Station>): (out: seq<TransformedStation>)
    decreases |ss|
    ensures |out| == |ss|
    ensures forall i :: 0 <= i < |ss| ==> out[i] == Transform(ss[i])
    ensures forall i :: 0 <= i < |ss| ==>
      out[i].stationId == ss[i].stationId && out[i].stationName == ss[i].stationName &&
      out[i].order == ss[i].order && out[i].line == Line(ss[i])
  {
    if ss == [] then []
    else
      var prefix := ss[..|ss| - 1];
      assert forall i :: 0 <= i < |ss| - 1 ==> ss[i] == prefix[i];
      Emitted(prefix) + [Transform(ss[|ss| - 1])]
  }

  /** The table rebuilt from `t` by writing each output record's line under its station
      id, in log order. */
  function Replay(t: Table, out: seq<TransformedStation>): Table
    decreases |out|
  {
    if out == [] then t
    else
      var last := out[|out| - 1];
      Replay(t, out[..|out| - 1])[last.stationId := last.line]
  }

  /** `i` is the position of the last record of `ss` whose station id is `k`. */
  ghost predicate IsLastFor(ss: seq<Station>, k: int, i: int) {
    0 <= i < |ss| && ss[i].stationId == k &&
    forall j :: i < j < |ss| ==> ss[j].stationId != k
  }

  /** The station ids that occur in `ss`. */
  ghost function StationIds(ss: seq<Station>): set<int> {
    set i | 0 <= i < |ss| :: ss[i].stationId
  }

  /** Processing one more record writes exactly its own key. */
  lemma ApplyStep(t: Table, ss: seq<Station>, s: Station)
    ensures Apply(t, ss + [s]) == Apply(t, ss)[s.stationId := Line(s)]
    ensures s.stationId in Apply(t, ss + [s]) && Apply(t, ss + [s])[s.stationId] == Line(s)
    ensures forall k :: k != s.stationId ==>
      (k in Apply(t, ss + [s]) <==> k in Apply(t, ss)) &&
      (k in Apply(t, ss) ==> Apply(t, ss + [s])[k] == Apply(t, ss)[k])
  {
  }

  /** Last write wins: the entry of `k` is the line of the last record with id `k`,
      whatever that line is (a `None` is stored as a present value). */
  lemma {:induction false} ApplyLastWriteWins(t: Table, ss: seq<Station>, k: int, i: int)
    requires IsLastFor(ss, k, i)
    ensures k in Apply(t, ss) && Apply(t, ss)[k] == Line(ss[i])
    decreases |ss|
  {
    var n := |ss| - 1;
    if i < n {
      var prefix := ss[..n];
      assert IsLastFor(prefix, k, i) by {
        forall j | i < j < |prefix| ensures prefix[j].stationId != k {
          assert prefix[j] == ss[j];
        }
      }
      ApplyLastWriteWins(t, prefix, k, i);
      assert ss[n].stationId != k;
    }
  }

  /** A key that no record carries keeps its entry, or its absence. */
  lemma {:induction false} ApplyUnseenKey(t: Table, ss: seq<Station>, k: int)
    requires forall j :: 0 <= j < |ss| ==> ss[j].stationId != k
    ensures k in Apply(t, ss) <==> k in t
    ensures k in t ==> Apply(t, ss)[k] == t[k]
    decreases |ss|
  {
    if ss != [] {
      var prefix := ss[..|ss| - 1];
      assert forall j :: 0 <= j < |prefix| ==> prefix[j] == ss[j];
      ApplyUnseenKey(t, prefix, k);
    }
  }

  /** The table's keys are the initial keys and the ids of all records seen, so, from an
      empty table, an id never seen is never a key. */
  lemma {:induction false} ApplyKeys(t: Table, ss: seq<Station>)
    ensures Apply(t, ss).Keys == t.Keys + StationIds(ss)
    decreases |ss|
  {
    if ss != [] {
      var prefix := ss[..|ss| - 1];
      ApplyKeys(t, prefix);
      assert StationIds(ss) == StationIds(prefix) + {ss[|ss| - 1].stationId} by {
        forall x | x in StationIds(ss) ensures x in StationIds(prefix) + {ss[|ss| - 1].stationId} {
          var i :| 0 <= i < |ss| && ss[i].stationId == x;
          if i < |ss| - 1 { assert prefix[i] == ss[i]; }
        }
        forall x | x in StationIds(prefix) ensures x in StationIds(ss) {
          var i :| 0 <= i < |prefix| && prefix[i].stationId == x;
          assert ss[i] == prefix[i];
        }
      }
    }
  }

  /** Replaying the records sent to the output topic, in order, rebuilds the table that
      direct processing produced. */
  lemma {:induction false} ReplayEmitted(t: Table, ss: seq<Station>)
    ensures Replay(t, Emitted(ss)) == Apply(t, ss)
    decreases |ss|
  {
    if ss != [] {
      var prefix := ss[..|ss| - 1];
      var out := Emitted(ss);
      assert out == Emitted(prefix) + [Transform(ss[|ss| - 1])];
      assert out[..|out| - 1] == Emitted(prefix);
      ReplayEmitted(t, prefix);
    }
  }

  /** The output record sent for the last record of each station agrees with that
      station's table entry. */
  lemma EmittedAgreesWithTable(t: Table, ss: seq<Station>, i: int)
    requires 0 <= i < |ss| && IsLastFor(ss, ss[i].stationId, i)
    ensures Emitted(ss)[i].stationId in Apply(t, ss)
    ensures Apply(t, ss)[Emitted(ss)[i].stationId] == Emitted(ss)[i].line
  {
    ApplyLastWriteWins(t, ss, ss[i].stationId, i);
  }

  /** The application's state: the table and the records sent to the output topic. */
  class App {
    var table: Table
    var outTopic: seq<TransformedStation>

    constructor ()
      ensures table == map[] && outTopic == []
    {
      table := map[];
      outTopic := [];
    }

    /** The agent: for each record in consumption order, derive the line, write the
        table entry, send one output record. */
    method ProcessStation(stations: seq<Station>)
      modifies this
      ensures table == Apply(old(table), stations)
      ensures outTopic == old(outTopic) + Emitted(stations)
    {
      for i := 0 to |stations|
        invariant table == Apply(old(table), stations[..i])
        invariant outTopic == old(outTopic) + Emitted(stations[..i])
      {
        var station := stations[i];
        var line := Line(station);
        table := table[station.stationId := line];
        var transformedStation := TransformedStation(
          station.stationId, station.stationName, station.order, line);
        outTopic := outTopic + [transformedStation];
        assert stations[..i + 1][..i] == stations[..i];
      }
      assert stations[..|stations|] == stations;
    }
  }
}
