/** `GStreamerEngine`: every appsink of the parsed pipelines must be named
    `<anything>_<channel id>`; the sinks are connected under their channel ids, sorted by
    id, and each sample they deliver is handed to the source's callback. */
module Engine {
  import opened Wrappers
  import opened Bytes
  import opened Strings
  import opened MultiChannel
  import opened SourceAccumulator
  import opened FrameSlicer

  /** A pipeline element: its factory name and its own name. Pipelines are given as their
      elements in iteration order. */
  datatype Element = Element(factory: string, name: string)

  predicate IsAppsink(e: Element) { e.factory == "appsink" }

  /** The appsink name check: exactly two `_`-separated parts, the second all digits; the
      channel id is its value. The first part is not looked at. */
  function ParseSinkName(name: string): (r: Result<nat>)
    ensures r.Err? ==> r.error == ValueError
  {
    var parts := Split(name, '_');
    if |parts| != 2 || !IsDigits(parts[1]) then Err(ValueError) else Ok(DigitsValue(parts[1]))
  }

  /** Any prefix without `_`, then `_` and a channel number, is read back as that number. */
  lemma ParseSinkNameOf(prefix: string, channel: nat)
    requires '_' !in prefix
    ensures ParseSinkName(prefix + "_" + NatToString(channel)) == Ok(channel)
  {
    var digits := NatToString(channel);
    NotInDigits(digits, '_');
    SplitJoin([prefix, digits], '_');
    assert Join([prefix, digits], ['_']) == prefix + "_" + digits;
    NatToStringValue(channel);
  }

  /** A name without `_` is refused. */
  lemma ParseSinkNameNoSeparator(name: string)
    requires '_' !in name
    ensures ParseSinkName(name) == Err(ValueError)
  {
    SplitNoSep(name, '_');
  }

  /** The appsinks among the elements, in order. */
  function Appsinks(es: seq<Element>): (r: seq<Element>)
    ensures |r| <= |es|
    ensures forall k :: 0 <= k < |r| ==> IsAppsink(r[k])
  {
    if |es| == 0 then []
    else if IsAppsink(es[0]) then [es[0]] + Appsinks(es[1..])
    else Appsinks(es[1..])
  }

  /** The channel ids of the appsinks, in order, or None when a name is refused. */
  function SinkIds(es: seq<Element>): (r: Option<seq<nat>>)
    ensures r.Some? ==> |r.value| == |Appsinks(es)|
  {
    if |es| == 0 then Some([])
    else
      var rest := SinkIds(es[1..]);
      if !IsAppsink(es[0]) then rest
      else if ParseSinkName(es[0].name).Err? || rest.None? then None
      else Some([ParseSinkName(es[0].name).value] + rest.value)
  }

  predicate Distinct(ids: seq<nat>)
  {
    forall i, j :: 0 <= i < j < |ids| ==> ids[i] != ids[j]
  }

  /** The registration loop of `_connect_sinks` over the remaining elements `es`, given the
      channels registered so far. */
  function Scan(es: seq<Element>, m: map<nat, Element>): (r: Result<map<nat, Element>>)
    ensures r.Err? ==> r.error == ValueError
    decreases |es|
  {
    if |es| == 0 then Ok(m)
    else if !IsAppsink(es[0]) then Scan(es[1..], m)
    else
      var id := ParseSinkName(es[0].name);
      if id.Err? then Err(ValueError)
      else if id.value in m then Err(ValueError)
      else Scan(es[1..], m[id.value := es[0]])
  }

  /** Registration succeeds exactly when every appsink name is accepted and no channel id
      repeats, among the elements or with those already registered. */
  lemma {:induction false} ScanOk(es: seq<Element>, m: map<nat, Element>)
    ensures Scan(es, m).Ok? <==>
      SinkIds(es).Some? && Distinct(SinkIds(es).value) && Fresh(SinkIds(es).value, m)
    decreases |es|
  {
    if |es| > 0 {
      var e := es[0];
      if !IsAppsink(e) {
        ScanOk(es[1..], m);
      } else {
        var id := ParseSinkName(e.name);
        if id.Ok? {
          ScanOk(es[1..], m[id.value := e]);
          if SinkIds(es[1..]).Some? {
            ConsIds(id.value, SinkIds(es[1..]).value, m, e);
          }
        }
      }
    }
  }

  /** No id is among the registered channels. */
  predicate Fresh(ids: seq<nat>, m: map<nat, Element>)
  {
    forall k :: 0 <= k < |ids| ==> ids[k] !in m
  }

  lemma ConsIds(id: nat, ids: seq<nat>, m: map<nat, Element>, e: Element)
    ensures Distinct([id] + ids) && Fresh([id] + ids, m) <==>
      id !in m && Distinct(ids) && Fresh(ids, m[id := e])
  {
    var all := [id] + ids;
    assert forall k :: 0 <= k < |ids| ==> all[k + 1] == ids[k];
    if Distinct(all) && Fresh(all, m) {
      assert all[0] == id;
      forall i, j | 0 <= i < j < |ids| ensures ids[i] != ids[j] {
        assert all[i + 1] != all[j + 1];
      }
      forall k | 0 <= k < |ids| ensures ids[k] !in m[id := e] {
        assert all[0] != all[k + 1];
        assert all[k + 1] !in m;
      }
    }
    if id !in m && Distinct(ids) && Fresh(ids, m[id := e]) {
      forall i, j | 0 <= i < j < |all| ensures all[i] != all[j] {
        if i > 0 {
          assert all[i] == ids[i - 1] && all[j] == ids[j - 1];
        } else {
          assert all[j] == ids[j - 1] && ids[j - 1] !in m[id := e];
        }
      }
      forall k | 0 <= k < |all| ensures all[k] !in m {
        if k > 0 {
          assert all[k] == ids[k - 1] && ids[k - 1] !in m[id := e];
        }
      }
    }
  }

  lemma IdSetCons(id: nat, ids: seq<nat>)
    ensures IdSet([id] + ids) == {id} + IdSet(ids)
  {
    var all := [id] + ids;
    forall x | x in IdSet(all) ensures x in {id} + IdSet(ids) {
      var k :| 0 <= k < |all| && all[k] == x;
      if k > 0 {
        assert ids[k - 1] == x;
      }
    }
    forall x | x in {id} + IdSet(ids) ensures x in IdSet(all) {
      if x == id {
        assert all[0] == x;
      } else {
        var k :| 0 <= k < |ids| && ids[k] == x;
        assert all[k + 1] == x;
      }
    }
  }

  /** After a successful registration the channels are the earlier ones plus the ids of
      the appsinks. */
  lemma {:induction false} ScanKeys(es: seq<Element>, m: map<nat, Element>)
    requires Scan(es, m).Ok?
    ensures SinkIds(es).Some?
    ensures Scan(es, m).value.Keys == m.Keys + IdSet(SinkIds(es).value)
    decreases |es|
  {
    ScanOk(es, m);
    if |es| > 0 {
      var e := es[0];
      if !IsAppsink(e) {
        ScanKeys(es[1..], m);
      } else {
        var id := ParseSinkName(e.name).value;
        ScanKeys(es[1..], m[id := e]);
        IdSetCons(id, SinkIds(es[1..]).value);
      }
    }
  }

  /** Each appsink is registered under its own channel id. */
  lemma {:induction false} ScanValues(es: seq<Element>, m: map<nat, Element>)
    requires Scan(es, m).Ok?
    ensures SinkIds(es).Some?
    ensures forall k :: 0 <= k < |Appsinks(es)| ==>
      SinkIds(es).value[k] in Scan(es, m).value && Scan(es, m).value[SinkIds(es).value[k]] == Appsinks(es)[k]
    decreases |es|
  {
    ScanOk(es, m);
    if |es| > 0 {
      var e := es[0];
      if !IsAppsink(e) {
        ScanValues(es[1..], m);
      } else {
        var id := ParseSinkName(e.name).value;
        var m' := m[id := e];
        ScanValues(es[1..], m');
        ScanKeys(es[1..], m');
        var ids := SinkIds(es[1..]).value;
        assert SinkIds(es).value == [id] + ids;
        assert Appsinks(es) == [e] + Appsinks(es[1..]);
        assert id in Scan(es[1..], m').value && Scan(es[1..], m').value[id] == e by {
          ScanKeep(es[1..], m', id);
        }
      }
    }
  }

  /** Registration never changes a channel already registered. */
  lemma {:induction false} ScanKeep(es: seq<Element>, m: map<nat, Element>, id: nat)
    requires Scan(es, m).Ok? && id in m
    ensures id in Scan(es, m).value && Scan(es, m).value[id] == m[id]
    decreases |es|
  {
    if |es| > 0 {
      var e := es[0];
      if !IsAppsink(e) {
        ScanKeep(es[1..], m, id);
      } else {
        var c := ParseSinkName(e.name).value;
        ScanKeep(es[1..], m[c := e], id);
      }
    }
  }

  /** `channels_count` after registration: one channel per appsink. */
  lemma ScanCount(es: seq<Element>, m: map<nat, Element>)
    requires Scan(es, m).Ok?
    ensures |Scan(es, m).value.Keys| == |m.Keys| + |Appsinks(es)|
  {
    ScanOk(es, m);
    ScanKeys(es, m);
    var ids := SinkIds(es).value;
    IdSetCard(ids);
    assert m.Keys * IdSet(ids) == {};
  }

  lemma {:induction false} IdSetCard(ids: seq<nat>)
    requires Distinct(ids)
    ensures |IdSet(ids)| == |ids|
    decreases |ids|
  {
    if |ids| > 0 {
      var rest := ids[1..];
      assert Distinct(rest) by {
        forall i, j | 0 <= i < j < |rest| ensures rest[i] != rest[j] {
          assert rest[i] == ids[i + 1] && rest[j] == ids[j + 1];
        }
      }
      IdSetCard(rest);
      assert [ids[0]] + rest == ids;
      IdSetCons(ids[0], rest);
      assert ids[0] !in IdSet(rest) by {
        forall k | 0 <= k < |rest| ensures rest[k] != ids[0] {
          assert rest[k] == ids[k + 1];
        }
      }
    }
  }

  function IdSet(ids: seq<nat>): set<nat>
  {
    set k | 0 <= k < |ids| :: ids[k]
  }

  /** Registering two runs of elements is registering the first, then the second. */
  lemma {:induction false} ScanAppend(a: seq<Element>, b: seq<Element>, m: map<nat, Element>)
    ensures Scan(a + b, m) == if Scan(a, m).Err? then Scan(a, m) else Scan(b, Scan(a, m).value)
    decreases |a|
  {
    if |a| == 0 {
      assert a + b == b;
    } else {
      assert (a + b)[0] == a[0] && (a + b)[1..] == a[1..] + b;
      if !IsAppsink(a[0]) {
        ScanAppend(a[1..], b, m);
      } else {
        var id := ParseSinkName(a[0].name);
        if id.Ok? && id.value !in m {
          ScanAppend(a[1..], b, m[id.value := a[0]]);
        }
      }
    }
  }

  /** `sorted(keys)` for a set of channel ids. */
  predicate Increasing(ks: seq<nat>)
  {
    forall i, j :: 0 <= i < j < |ks| ==> ks[i] < ks[j]
  }

  lemma HasMin(s: set<nat>) returns (k: nat)
    requires s != {}
    ensures k in s && forall j :: j in s ==> k <= j
    decreases s
  {
    var x :| x in s;
    if s == {x} {
      k := x;
    } else {
      var k' := HasMin(s - {x});
      k := if x < k' then x else k';
      forall j | j in s ensures k <= j {
        if j != x {
          assert j in s - {x};
        }
      }
    }
  }

  /** The channel ids in ascending order. */
  method SortedKeys(keys: set<nat>) returns (ks: seq<nat>)
    ensures Increasing(ks) && |ks| == |keys|
    ensures forall k :: k in keys <==> k in ks
  {
    ks := [];
    var rem := keys;
    while rem != {}
      invariant rem <= keys && |ks| + |rem| == |keys|
      invariant forall k :: k in keys <==> k in rem || k in ks
      invariant Increasing(ks)
      invariant forall i, k :: 0 <= i < |ks| && k in rem ==> ks[i] < k
      decreases |rem|
    {
      ghost var least := HasMin(rem);
      var k :| k in rem && forall j :: j in rem ==> k <= j;
      ks := ks + [k];
      rem := rem - {k};
    }
  }

  /** `Gst.FlowReturn`. */
  datatype FlowReturn = FlowOk | FlowError

  /** A pulled buffer: None when the sample or its buffer is missing. */
  type Pulled = Option<seq<byte>>

  class GStreamerEngine {
    const pipelines: seq<seq<Element>>
    /** `_sinks`, and the channel id each is connected with. */
    var sinks: seq<Element>
    var sinkIds: seq<nat>

    /** The constructor once `_create_pipelines` has parsed every description. */
    constructor (pipelines: seq<seq<Element>>)
      ensures this.pipelines == pipelines && sinks == [] && sinkIds == []
    {
      this.pipelines := pipelines;
      sinks := [];
      sinkIds := [];
    }

    /** `_connect_sinks`: every element of every pipeline is visited in order; an appsink
        with a refused name or a channel id seen before raises ValueError and no sink is
        kept; otherwise the sinks are kept sorted by channel id. */
    method ConnectSinks() returns (r: Result<()>)
      requires sinks == [] && sinkIds == []
      modifies this
      ensures Scan(Flatten(pipelines), map[]).Err? ==> r == Err(ValueError) && sinks == [] && sinkIds == []
      ensures Scan(Flatten(pipelines), map[]).Ok? ==>
        var m := Scan(Flatten(pipelines), map[]).value;
        && r == Ok(())
        && Increasing(sinkIds) && (forall k :: k in m <==> k in sinkIds)
        && |sinks| == |sinkIds| == |Appsinks(Flatten(pipelines))|
        && forall k :: 0 <= k < |sinks| ==> sinks[k] == m[sinkIds[k]]
    {
      var reg := Register();
      if reg.Err? {
        return Err(ValueError);
      }
      var registered := reg.value;
      ScanCount(Flatten(pipelines), map[]);
      var ks := SortedKeys(registered.Keys);
      KeepSorted(registered, ks);
      return Ok(());
    }

    /** The loop over the sorted channel ids that appends each sink. */
    method KeepSorted(registered: map<nat, Element>, ks: seq<nat>)
      requires sinks == [] && sinkIds == []
      requires forall k :: k in ks ==> k in registered
      modifies this
      ensures sinkIds == ks && |sinks| == |ks|
      ensures forall j :: 0 <= j < |sinks| ==> sinks[j] == registered[ks[j]]
    {
      var k := 0;
      while k < |ks|
        invariant k <= |ks| && |sinks| == k && sinkIds == ks[..k]
        invariant forall j :: 0 <= j < k ==> sinks[j] == registered[ks[j]]
      {
        sinks := sinks + [registered[ks[k]]];
        sinkIds := sinkIds + [ks[k]];
        k := k + 1;
      }
      assert ks[..k] == ks;
    }

    /** The two nested loops that fill the `pipelines` dictionary. */
    method Register() returns (r: Result<map<nat, Element>>)
      ensures r == Scan(Flatten(pipelines), map[])
    {
      var registered: map<nat, Element> := map[];
      var p := 0;
      while p < |pipelines|
        invariant p <= |pipelines|
        invariant Scan(Flatten(pipelines), map[]) == Scan(Flatten(pipelines[p..]), registered)
      {
        assert Flatten(pipelines[p..]) == pipelines[p] + Flatten(pipelines[p + 1..]);
        ScanAppend(pipelines[p], Flatten(pipelines[p + 1..]), registered);
        var one := RegisterPipeline(pipelines[p], registered);
        if one.Err? {
          return one;
        }
        registered := one.value;
        p := p + 1;
      }
      assert pipelines[p..] == [];
      return Ok(registered);
    }

    /** The inner loop over one pipeline's elements. */
    static method RegisterPipeline(elems: seq<Element>, registered: map<nat, Element>)
      returns (r: Result<map<nat, Element>>)
      ensures r == Scan(elems, registered)
    {
      var m: map<nat, Element> := registered;
      var i := 0;
      while i < |elems|
        invariant i <= |elems|
        invariant Scan(elems, registered) == Scan(elems[i..], m)
      {
        var e := elems[i];
        assert elems[i..][1..] == elems[i + 1..];
        if e.factory == "appsink" {
          var id := ParseSinkName(e.name);
          if id.Err? {
            return Err(ValueError);
          }
          if id.value in m {
            return Err(ValueError);
          }
          m := m[id.value := e];
        }
        i := i + 1;
      }
      assert elems[i..] == [];
      return Ok(m);
    }

    /** `channels_count`. */
    function ChannelsCount(): (n: nat)
      reads this
      ensures n == |sinks|
    {
      |sinks|
    }

    /** `_handle_new_sample` for the sink connected with `channelId`, whose callback is the
        source's `_on_new_sample`: ERROR without a sample or buffer, ERROR when the callback
        raises, OK otherwise. */
    method HandleNewSample(source: GstreamerSource, channelId: int, pulled: Pulled)
      returns (f: FlowReturn, r: Result<()>)
      requires source.Valid()
      modifies source, source.dataQueue
      ensures source.Valid() && source.requiredBufferSize == old(source.requiredBufferSize)
      ensures |source.sinksData| == |old(source.sinksData)|
      ensures pulled.None? ==>
        f == FlowError && source.sinksData == old(source.sinksData) &&
        source.dataQueue.State() == old(source.dataQueue.State())
      ensures pulled.Some? ==> (f == FlowOk <==> r.Ok?)
      ensures pulled.Some? && ChannelIndex(|old(source.sinksData)|, channelId).None? ==>
        r == Err(IndexError) && source.sinksData == old(source.sinksData) &&
        source.dataQueue.State() == old(source.dataQueue.State())
      ensures pulled.Some? && ChannelIndex(|old(source.sinksData)|, channelId).Some? ==>
        var c := ChannelIndex(|old(source.sinksData)|, channelId).value;
        && source.sinksData == old(source.sinksData)[c := source.sinksData[c]]
        && Sliced(c, old(source.sinksData)[c] + pulled.value, source.requiredBufferSize,
                  old(source.dataQueue.State()), r, source.sinksData[c], source.dataQueue.State())
    {
      if pulled.None? {
        return FlowError, Err(ValueError);
      }
      r := source.OnNewSample(channelId, pulled.value);
      f := if r.Ok? then FlowOk else FlowError;
    }
  }

  /** Channel ids need not be contiguous: with appsinks `sink_0` and `sink_5` the count is
      two, and a sample from channel 5 reaches a source holding two channels, where it
      raises IndexError, so the engine answers ERROR. */
  lemma NonContiguousIds()
    ensures ParseSinkName("sink_5") == Ok(5)
    ensures ChannelIndex(2, 5).None?
  {
    ParseSinkNameOf("sink", 5);
    assert NatToString(5) == "5";
    assert "sink" + "_" + "5" == "sink_5";
  }
}
