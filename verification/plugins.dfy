/**
 * The plugin registry (plugins.go): option strings of the form
 * `address|limit`, the sorting of constructed plugins into readers and
 * writers, and the order in which InitPlugins registers them.
 *
 * The plugins' constructors are not run: a registered plugin is recorded by
 * its kind, its address, its limit text and its position. The file plugins
 * and the limiter are not part of this model; their capabilities are taken
 * as Go's file input (a reader) and file output (a writer) have them, and the
 * limiter's are a parameter of the registry.
 */
module Plugins {
  import opened Bytes
  import opened Capability

  /**
   * extractLimitOptions: the text before the first '|' is the address, the
   * text between the first and the second '|' the limit; anything after a
   * second '|' is dropped. Without a '|' the limit is empty.
   */
  function ExtractLimitOptions(options: seq<byte>): (r: (seq<byte>, seq<byte>))
    ensures Pipe !in r.0 && Pipe !in r.1
    ensures Pipe !in options ==> r == (options, [])
    ensures Pipe in options ==>
      |r.0| < |options| && options[..|r.0|] == r.0 && options[|r.0|] == Pipe
    ensures Pipe in options ==>
      var rest := options[|r.0| + 1..];
      |r.1| <= |rest| && r.1 == rest[..|r.1|] && (|r.1| == |rest| || rest[|r.1|] == Pipe)
  {
    var split := Split(options, Pipe);
    if |split| > 1 then
      var i := IndexByte(options, Pipe);
      assert split[1..] == Split(options[i + 1..], Pipe);
      (split[0], split[1])
    else (split[0], [])
  }

  /** The kinds InitPlugins constructs, in its registration order. */
  datatype Kind = StdOutput | NullOutput | UDPInput | FileInput | FileOutput | UDPOutput | HTTPInput | HTTPOutput

  /** Position of a kind in InitPlugins' order. */
  function Rank(k: Kind): nat
  {
    match k
    case StdOutput => 0
    case NullOutput => 1
    case UDPInput => 2
    case FileInput => 3
    case FileOutput => 4
    case UDPOutput => 5
    case HTTPInput => 6
    case HTTPOutput => 7
  }

  /** Which of PluginRead and PluginWrite a plugin has. */
  datatype Caps = Caps(reader: bool, writer: bool)

  /** The UDP and HTTP outputs also read (they return responses). */
  function KindCaps(k: Kind): Caps
  {
    match k
    case StdOutput => Caps(false, true)
    case NullOutput => Caps(false, true)
    case UDPInput => Caps(true, false)
    case FileInput => Caps(true, false)
    case FileOutput => Caps(false, true)
    case UDPOutput => Caps(true, true)
    case HTTPInput => Caps(true, false)
    case HTTPOutput => Caps(true, true)
  }

  /** A registered plugin: kind, address and limit text, and its position in All. */
  datatype Plugin = Plugin(kind: Kind, path: seq<byte>, limit: seq<byte>, id: nat)

  /** A plugin with a limit is wrapped by the limiter, whose capabilities are `limiter`. */
  function CapsOf(p: Plugin, limiter: Caps): Caps
  {
    if p.limit != [] then limiter else KindCaps(p.kind)
  }

  predicate IsInput(c: Caps) { c.reader && !c.writer }
  predicate IsOutput(c: Caps) { c.writer }

  /** The plugins of `all` that go to Inputs: readers that do not also write, in order. */
  function InputsOf(all: seq<Plugin>, limiter: Caps): (r: seq<Plugin>)
    ensures |r| <= |all|
  {
    if all == [] then []
    else
      var init := all[..|all| - 1];
      assert all == init + [all[|all| - 1]];
      InputsOf(init, limiter) + (if IsInput(CapsOf(all[|all| - 1], limiter)) then [all[|all| - 1]] else [])
  }

  /** The plugins of `all` that go to Outputs: every writer, in order. */
  function OutputsOf(all: seq<Plugin>, limiter: Caps): (r: seq<Plugin>)
    ensures |r| <= |all|
  {
    if all == [] then []
    else
      var init := all[..|all| - 1];
      assert all == init + [all[|all| - 1]];
      OutputsOf(init, limiter) + (if IsOutput(CapsOf(all[|all| - 1], limiter)) then [all[|all| - 1]] else [])
  }

  lemma InputsOfSnoc(all: seq<Plugin>, limiter: Caps, p: Plugin)
    ensures InputsOf(all + [p], limiter) == InputsOf(all, limiter) + (if IsInput(CapsOf(p, limiter)) then [p] else [])
  {
    assert (all + [p])[..|all|] == all;
  }

  lemma OutputsOfSnoc(all: seq<Plugin>, limiter: Caps, p: Plugin)
    ensures OutputsOf(all + [p], limiter) == OutputsOf(all, limiter) + (if IsOutput(CapsOf(p, limiter)) then [p] else [])
  {
    assert (all + [p])[..|all|] == all;
  }

  /** Plugins numbered by their position. */
  predicate Numbered(all: seq<Plugin>)
  {
    forall k :: 0 <= k < |all| ==> all[k].id == k
  }

  lemma NumberedSnoc(all: seq<Plugin>, p: Plugin)
    requires Numbered(all) && p.id == |all|
    ensures Numbered(all + [p])
  {
  }

  /** Inputs keep the order of All: their positions in All increase. */
  lemma {:induction false} InputsInOrder(all: seq<Plugin>, limiter: Caps)
    requires Numbered(all)
    ensures forall k :: 0 <= k < |InputsOf(all, limiter)| ==> InputsOf(all, limiter)[k].id < |all|
    ensures forall j, k :: 0 <= j < k < |InputsOf(all, limiter)| ==> InputsOf(all, limiter)[j].id < InputsOf(all, limiter)[k].id
  {
    if all != [] {
      var init := all[..|all| - 1];
      InputsInOrder(init, limiter);
      assert all == init + [all[|all| - 1]];
      InputsOfSnoc(init, limiter, all[|all| - 1]);
    }
  }

  /** Outputs keep the order of All: their positions in All increase. */
  lemma {:induction false} OutputsInOrder(all: seq<Plugin>, limiter: Caps)
    requires Numbered(all)
    ensures forall k :: 0 <= k < |OutputsOf(all, limiter)| ==> OutputsOf(all, limiter)[k].id < |all|
    ensures forall j, k :: 0 <= j < k < |OutputsOf(all, limiter)| ==> OutputsOf(all, limiter)[j].id < OutputsOf(all, limiter)[k].id
  {
    if all != [] {
      var init := all[..|all| - 1];
      OutputsInOrder(init, limiter);
      assert all == init + [all[|all| - 1]];
      OutputsOfSnoc(init, limiter, all[|all| - 1]);
    }
  }

  /** A plugin is in Inputs exactly when it is in All and reads without writing. */
  lemma {:induction false} InputsOfMembers(all: seq<Plugin>, limiter: Caps, p: Plugin)
    ensures p in InputsOf(all, limiter) <==> p in all && IsInput(CapsOf(p, limiter))
  {
    if all != [] {
      var init := all[..|all| - 1];
      InputsOfMembers(init, limiter, p);
      assert all == init + [all[|all| - 1]];
      InputsOfSnoc(init, limiter, all[|all| - 1]);
    }
  }

  /** A plugin is in Outputs exactly when it is in All and writes. */
  lemma {:induction false} OutputsOfMembers(all: seq<Plugin>, limiter: Caps, p: Plugin)
    ensures p in OutputsOf(all, limiter) <==> p in all && IsOutput(CapsOf(p, limiter))
  {
    if all != [] {
      var init := all[..|all| - 1];
      OutputsOfMembers(init, limiter, p);
      assert all == init + [all[|all| - 1]];
      OutputsOfSnoc(init, limiter, all[|all| - 1]);
    }
  }

  /** No plugin is both an input and an output. */
  lemma InputsAndOutputsDisjoint(all: seq<Plugin>, limiter: Caps, p: Plugin)
    ensures !(p in InputsOf(all, limiter) && p in OutputsOf(all, limiter))
  {
    InputsOfMembers(all, limiter, p);
    OutputsOfMembers(all, limiter, p);
  }

  /** One registerPlugin call: the constructor's kind and its first option, if it takes one. */
  datatype Registration = Registration(kind: Kind, options: Option<seq<byte>>)

  /** The plugin registerPlugin records for `kind` called with `options`, at position `id`. */
  function Added(kind: Kind, options: Option<seq<byte>>, id: nat): Plugin
  {
    match options
    case None => Plugin(kind, [], [], id)
    case Some(o) =>
      var (path, limit) := ExtractLimitOptions(o);
      Plugin(kind, path, limit, id)
  }

  /**
   * `now` is `start` with one plugin appended per registration of `plan`, in
   * order, each numbered by its position: All only grows at the end.
   */
  predicate Extends(start: seq<Plugin>, now: seq<Plugin>, plan: seq<Registration>)
  {
    |now| == |start| + |plan| && now[..|start|] == start
    && forall k :: 0 <= k < |plan| ==> now[|start| + k] == Added(plan[k].kind, plan[k].options, |start| + k)
  }

  lemma ExtendsConcat(start: seq<Plugin>, mid: seq<Plugin>, now: seq<Plugin>, a: seq<Registration>, b: seq<Registration>)
    requires Extends(start, mid, a) && Extends(mid, now, b)
    ensures Extends(start, now, a + b)
  {
    assert now[..|mid|] == mid;
    assert now[..|start|] == mid[..|start|];
    forall k | 0 <= k < |a + b|
      ensures now[|start| + k] == Added((a + b)[k].kind, (a + b)[k].options, |start| + k)
    {
      if k < |a| {
        assert now[|start| + k] == mid[|start| + k];
      } else {
        assert (a + b)[k] == b[k - |a|];
        assert now[|start| + k] == now[|mid| + (k - |a|)];
      }
    }
  }

  lemma ExtendsByOne(prev: seq<Plugin>, now: seq<Plugin>, kind: Kind, options: Option<seq<byte>>)
    requires now == prev + [Added(kind, options, |prev|)]
    ensures Extends(prev, now, [Registration(kind, options)])
  {
    assert now[..|prev|] == prev;
  }

  /** One `for _, options := range list` block of InitPlugins. */
  function Entries(kind: Kind, list: seq<seq<byte>>): (plan: seq<Registration>)
    ensures |plan| == |list|
    ensures forall k :: 0 <= k < |list| ==> plan[k] == Registration(kind, Some(list[k]))
  {
    seq(|list|, k requires 0 <= k < |list| => Registration(kind, Some(list[k])))
  }

  /** One more pass of a registration loop extends the plan by that list entry. */
  lemma EntriesStep(start: seq<Plugin>, before: seq<Plugin>, now: seq<Plugin>, kind: Kind, list: seq<seq<byte>>, i: nat)
    requires i < |list|
    requires Extends(start, before, Entries(kind, list[..i]))
    requires now == before + [Added(kind, Some(list[i]), |before|)]
    ensures Extends(start, now, Entries(kind, list[..i + 1]))
  {
    ExtendsByOne(before, now, kind, Some(list[i]));
    ExtendsConcat(start, before, now, Entries(kind, list[..i]), [Registration(kind, Some(list[i]))]);
    assert Entries(kind, list[..i]) + [Registration(kind, Some(list[i]))] == Entries(kind, list[..i + 1]);
  }

  /** The settings InitPlugins reads. */
  datatype Settings = Settings(
    outputStdout: bool,
    outputNull: bool,
    inputUDP: seq<seq<byte>>,
    inputFile: seq<seq<byte>>,
    outputFile: seq<seq<byte>>,
    outputUDP: seq<seq<byte>>,
    inputHttp: seq<seq<byte>>,
    outputHttp: seq<seq<byte>>)

  /** A registration without options, made when its flag is set. */
  function Flagged(flag: bool, kind: Kind): (plan: seq<Registration>)
    ensures |plan| <= 1
    ensures forall k :: 0 <= k < |plan| ==> plan[k] == Registration(kind, None)
  {
    if flag then [Registration(kind, None)] else []
  }

  /** Every registration InitPlugins makes, in order. */
  function Plan(s: Settings): seq<Registration>
  {
    Flagged(s.outputStdout, StdOutput) + Flagged(s.outputNull, NullOutput)
    + Entries(UDPInput, s.inputUDP) + Entries(FileInput, s.inputFile)
    + Entries(FileOutput, s.outputFile) + Entries(UDPOutput, s.outputUDP)
    + Entries(HTTPInput, s.inputHttp) + Entries(HTTPOutput, s.outputHttp)
  }

  /** Registrations whose kinds never go down in rank, all between lo and hi. */
  predicate RanksWithin(plan: seq<Registration>, lo: nat, hi: nat)
  {
    (forall k :: 0 <= k < |plan| ==> lo <= Rank(plan[k].kind) <= hi)
    && forall j, k :: 0 <= j < k < |plan| ==> Rank(plan[j].kind) <= Rank(plan[k].kind)
  }

  /** The registrations of the block of rank r (the r-th statement of InitPlugins). */
  function Block(s: Settings, r: nat): seq<Registration>
  {
    if r == 0 then Flagged(s.outputStdout, StdOutput)
    else if r == 1 then Flagged(s.outputNull, NullOutput)
    else if r == 2 then Entries(UDPInput, s.inputUDP)
    else if r == 3 then Entries(FileInput, s.inputFile)
    else if r == 4 then Entries(FileOutput, s.outputFile)
    else if r == 5 then Entries(UDPOutput, s.outputUDP)
    else if r == 6 then Entries(HTTPInput, s.inputHttp)
    else if r == 7 then Entries(HTTPOutput, s.outputHttp)
    else []
  }

  /** The registrations of blocks 0 .. r-1. */
  function PlanPrefix(s: Settings, r: nat): seq<Registration>
  {
    if r == 0 then [] else PlanPrefix(s, r - 1) + Block(s, r - 1)
  }

  lemma BlockRank(s: Settings, r: nat)
    ensures RanksWithin(Block(s, r), r, r)
  {
  }

  lemma RanksConcat(a: seq<Registration>, b: seq<Registration>, lo: nat, mid: nat, hi: nat)
    requires lo <= mid <= hi
    requires RanksWithin(a, lo, mid) && RanksWithin(b, mid, hi)
    ensures RanksWithin(a + b, lo, hi)
  {
    forall k | 0 <= k < |a + b| ensures lo <= Rank((a + b)[k].kind) <= hi {
      if k >= |a| {
        assert (a + b)[k] == b[k - |a|];
      }
    }
    forall j, k | 0 <= j < k < |a + b| ensures Rank((a + b)[j].kind) <= Rank((a + b)[k].kind) {
      if j >= |a| {
        assert (a + b)[j] == b[j - |a|] && (a + b)[k] == b[k - |a|];
      } else if k >= |a| {
        assert (a + b)[k] == b[k - |a|];
      }
    }
  }

  lemma {:induction false} PlanPrefixRanks(s: Settings, r: nat)
    ensures RanksWithin(PlanPrefix(s, r), 0, r)
  {
    if r > 0 {
      PlanPrefixRanks(s, r - 1);
      BlockRank(s, r - 1);
      RanksConcat(PlanPrefix(s, r - 1), Block(s, r - 1), 0, r - 1, r);
    }
  }

  /**
   * The registration order: stdout, null, UDP inputs, file inputs, file
   * outputs, UDP outputs, HTTP inputs, HTTP outputs.
   */
  lemma PlanOrdered(s: Settings)
    ensures forall j, k :: 0 <= j < k < |Plan(s)| ==> Rank(Plan(s)[j].kind) <= Rank(Plan(s)[k].kind)
  {
    PlanPrefixRanks(s, 8);
    assert PlanPrefix(s, 1) == Flagged(s.outputStdout, StdOutput);
    assert PlanPrefix(s, 2) == PlanPrefix(s, 1) + Flagged(s.outputNull, NullOutput);
    assert PlanPrefix(s, 3) == PlanPrefix(s, 2) + Entries(UDPInput, s.inputUDP);
    assert PlanPrefix(s, 4) == PlanPrefix(s, 3) + Entries(FileInput, s.inputFile);
    assert PlanPrefix(s, 5) == PlanPrefix(s, 4) + Entries(FileOutput, s.outputFile);
    assert PlanPrefix(s, 6) == PlanPrefix(s, 5) + Entries(UDPOutput, s.outputUDP);
    assert PlanPrefix(s, 7) == PlanPrefix(s, 6) + Entries(HTTPInput, s.inputHttp);
    assert PlanPrefix(s, 8) == PlanPrefix(s, 7) + Entries(HTTPOutput, s.outputHttp);
  }

  /** Plugins.Inputs, Plugins.Outputs and Plugins.All. */
  class Registry {
    var inputs: seq<Plugin>
    var outputs: seq<Plugin>
    var all: seq<Plugin>
    const limiter: Caps

    /** Inputs and Outputs are the sorting of All, and each plugin sits at its own position in All. */
    ghost predicate Valid()
      reads this
    {
      inputs == InputsOf(all, limiter) && outputs == OutputsOf(all, limiter) && Numbered(all)
    }

    constructor(limiter: Caps)
      ensures Valid() && this.limiter == limiter
      ensures inputs == [] && outputs == [] && all == []
    {
      this.limiter := limiter;
      inputs, outputs, all := [], [], [];
    }

    /**
     * registerPlugin: splits the limit off the first option, then appends the
     * plugin to Inputs if it reads but does not write, to Outputs if it
     * writes, and to All in every case.
     */
    method Register(kind: Kind, options: Option<seq<byte>>)
      requires Valid()
      modifies this
      ensures Valid()
      ensures all == old(all) + [Added(kind, options, |old(all)|)]
    {
      var path: seq<byte>, limit: seq<byte> := [], [];
      if options.Some? {
        var r := ExtractLimitOptions(options.value);
        path, limit := r.0, r.1;
      }
      var p := Plugin(kind, path, limit, |all|);
      assert p == Added(kind, options, |all|);
      Append(p);
    }

    /** The second half of registerPlugin: file the plugin by the capabilities it has. */
    method Append(p: Plugin)
      requires Valid() && p.id == |all|
      modifies this
      ensures Valid()
      ensures all == old(all) + [p]
    {
      var caps := if p.limit != [] then limiter else KindCaps(p.kind);
      if caps.reader && !caps.writer {
        inputs := inputs + [p];
      }
      if caps.writer {
        outputs := outputs + [p];
      }
      InputsOfSnoc(all, limiter, p);
      OutputsOfSnoc(all, limiter, p);
      NumberedSnoc(all, p);
      all := all + [p];
    }

    /** One `for _, options := range list { registerPlugin(...) }` block. */
    method RegisterAll(kind: Kind, list: seq<seq<byte>>)
      requires Valid()
      modifies this
      ensures Valid()
      ensures Extends(old(all), all, Entries(kind, list))
    {
      var i := 0;
      while i < |list|
        invariant 0 <= i <= |list|
        invariant Valid()
        invariant Extends(old(all), all, Entries(kind, list[..i]))
      {
        ghost var before := all;
        Register(kind, Some(list[i]));
        EntriesStep(old(all), before, all, kind, list, i);
        i := i + 1;
      }
      assert list[..i] == list;
    }

    /** `if flag { registerPlugin(constructor) }` for a constructor without options. */
    method RegisterFlagged(flag: bool, kind: Kind)
      requires Valid()
      modifies this
      ensures Valid()
      ensures Extends(old(all), all, Flagged(flag, kind))
    {
      if flag {
        Register(kind, None);
        ExtendsByOne(old(all), all, kind, None);
      } else {
        assert all[..|all|] == all;
      }
    }

    /** InitPlugins: every configured plugin, in the fixed order of Plan. */
    method InitPlugins(s: Settings)
      requires Valid()
      modifies this
      ensures Valid()
      ensures Extends(old(all), all, Plan(s))
    {
      ghost var start := all;
      RegisterFlagged(s.outputStdout, StdOutput);
      ghost var done, prev := Flagged(s.outputStdout, StdOutput), all;
      RegisterFlagged(s.outputNull, NullOutput);
      ExtendsConcat(start, prev, all, done, Flagged(s.outputNull, NullOutput));
      done, prev := done + Flagged(s.outputNull, NullOutput), all;
      RegisterAll(UDPInput, s.inputUDP);
      ExtendsConcat(start, prev, all, done, Entries(UDPInput, s.inputUDP));
      done, prev := done + Entries(UDPInput, s.inputUDP), all;
      RegisterAll(FileInput, s.inputFile);
      ExtendsConcat(start, prev, all, done, Entries(FileInput, s.inputFile));
      done, prev := done + Entries(FileInput, s.inputFile), all;
      RegisterAll(FileOutput, s.outputFile);
      ExtendsConcat(start, prev, all, done, Entries(FileOutput, s.outputFile));
      done, prev := done + Entries(FileOutput, s.outputFile), all;
      RegisterAll(UDPOutput, s.outputUDP);
      ExtendsConcat(start, prev, all, done, Entries(UDPOutput, s.outputUDP));
      done, prev := done + Entries(UDPOutput, s.outputUDP), all;
      RegisterAll(HTTPInput, s.inputHttp);
      ExtendsConcat(start, prev, all, done, Entries(HTTPInput, s.inputHttp));
      done, prev := done + Entries(HTTPInput, s.inputHttp), all;
      RegisterAll(HTTPOutput, s.outputHttp);
      ExtendsConcat(start, prev, all, done, Entries(HTTPOutput, s.outputHttp));
      done := done + Entries(HTTPOutput, s.outputHttp);
    }
  }
}
