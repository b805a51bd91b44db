/**
 * The target emission of `pretend_to_be_meson`: custom targets, then build
 * targets, are turned into Meson function calls, each one only after
 * everything it links with, extracts objects from, depends on or reads a
 * generated file from.  A target reached again while it is still being
 * processed is a dependency cycle.  The result is the table of generated
 * variable names `target_info` and `target_list` answer from.
 */
module CMakeEmit {
  import opened WrapCommon
  import opened CMakeNames
  import opened CMakeFlags
  import opened CMakeConverter

  // ---------------------------------------------------------------------------
  // What processing a target visits
  // ---------------------------------------------------------------------------

  /** The name a target is processed under. */
  function Name(d: Dep): string {
    if d.Target? then d.t.name else d.c.name
  }

  /** Python's `outputs[index]`: a negative index counts from the end. */
  function PyIndex(outputs: seq<string>, index: int): (r: Option<string>)
    ensures r.Some? <==> -|outputs| <= index < |outputs|
    ensures r.Some? ==> r.value in outputs
  {
    if 0 <= index < |outputs| then Some(outputs[index])
    else if -|outputs| <= index < 0 then Some(outputs[|outputs| + index])
    else None
  }

  /**
   * One step of processing a target, in the order the source takes them:
   * process another target (unless it is already processed), look up the
   * file name a reference designates, or raise.
   */
  datatype Step = Enter(dep: Dep) | Filename(ref: CustomTargetReference) | Abort(error: CMakeError)

  /** `link_with` entries must be build targets. */
  function LinkStep(x: Dep): Step {
    if x.Target? then Enter(x) else Abort(AssertionFailed)
  }

  /** Only the custom targets among `depends` are visited by a build target. */
  function CustomDependSteps(deps: seq<Dep>): (r: seq<Step>)
    ensures forall i :: 0 <= i < |r| ==> r[i].Enter? && r[i].dep.Custom? && r[i].dep in deps
    ensures forall i :: 0 <= i < |deps| && deps[i].Custom? ==> Enter(deps[i]) in r
  {
    if deps == [] then []
    else CustomDependSteps(deps[..|deps| - 1]) + (if deps[|deps| - 1].Custom? then [Enter(deps[|deps| - 1])] else [])
  }

  /**
   * A reference among the generated sources: its custom target is processed,
   * then the file name it designates is looked up; a reference without a
   * target fails on the attribute read.
   */
  function GeneratedSteps(generated: seq<Generated>): (r: seq<Step>)
    ensures forall i :: 0 <= i < |r| && r[i].Filename? ==> r[i].ref.ctgt != null && GenRef(r[i].ref) in generated
    ensures forall i :: 0 <= i < |r| && r[i].Enter? ==> r[i].dep.Custom?
    ensures forall i :: 0 <= i < |r| && r[i].Abort? ==> r[i] == Abort(AttributeError)
    ensures forall i :: 0 <= i < |generated| && generated[i].GenRef? ==>
      if generated[i].ref.ctgt == null then Abort(AttributeError) in r
      else Enter(Custom(generated[i].ref.ctgt)) in r && Filename(generated[i].ref) in r
  {
    if generated == [] then []
    else
      var g := generated[|generated| - 1];
      GeneratedSteps(generated[..|generated| - 1]) +
        (if g.GenPath? then []
         else if g.ref.ctgt == null then [Abort(AttributeError)]
         else [Enter(Custom(g.ref.ctgt)), Filename(g.ref)])
  }

  /** A generated-source step raises only because of a reference without a custom target. */
  lemma {:induction false} GeneratedAbortSound(generated: seq<Generated>, i: nat)
    requires i < |GeneratedSteps(generated)| && GeneratedSteps(generated)[i].Abort?
    ensures NullRef(generated)
  {
    var init := generated[..|generated| - 1];
    var ri := GeneratedSteps(init);
    assert GeneratedSteps(generated)[..|ri|] == ri;
    if i < |ri| {
      GeneratedAbortSound(init, i);
      var j :| 0 <= j < |init| && init[j].GenRef? && init[j].ref.ctgt == null;
      assert generated[j] == init[j];
    } else {
      assert generated[|generated| - 1].GenRef?;
    }
  }

  /** Some reference among the generated sources has no custom target. */
  predicate NullRef(generated: seq<Generated>) {
    exists j :: 0 <= j < |generated| && generated[j].GenRef? && generated[j].ref.ctgt == null
  }

  /** A build target's processing aborts on a `link_with` entry that is a custom target, or a reference without a target. */
  predicate TargetAborts(t: ConverterTarget)
    reads t
  {
    (exists j :: 0 <= j < |t.linkWith| && t.linkWith[j].Custom?) || NullRef(t.generated)
  }

  /** The targets named by the words of one command line. */
  function WordSteps(line: seq<Word>): (r: seq<Step>)
    ensures forall i :: 0 <= i < |r| ==> r[i].Enter?
    ensures forall i :: 0 <= i < |line| && line[i].Obj? ==> Enter(line[i].dep) in r
  {
    if line == [] then []
    else WordSteps(line[..|line| - 1]) + (if line[|line| - 1].Obj? then [Enter(line[|line| - 1].dep)] else [])
  }

  /** The targets named by the words of a custom command, line by line. */
  function CommandSteps(command: seq<seq<Word>>): (r: seq<Step>)
    ensures forall i :: 0 <= i < |r| ==> r[i].Enter?
  {
    if command == [] then [] else CommandSteps(command[..|command| - 1]) + WordSteps(command[|command| - 1])
  }

  /**
   * The references among a custom target's inputs: their custom target is
   * processed; a reference without a target fails on the attribute read,
   * and a missing reference (`None`) is passed through.
   */
  function InputSteps(inputs: seq<Input>): (r: seq<Step>)
    ensures forall i :: 0 <= i < |r| ==> r[i].Enter? || r[i] == Abort(AttributeError)
    ensures |r| <= |inputs|
    ensures r == [] ==> forall j :: 0 <= j < |inputs| ==> inputs[j].InputPath? || inputs[j].ref.None?
    ensures forall j :: 0 <= j < |inputs| && inputs[j].InputRef? && inputs[j].ref.Some? ==>
      (if inputs[j].ref.value.ctgt == null then Abort(AttributeError) else Enter(Custom(inputs[j].ref.value.ctgt))) in r
    ensures forall i :: 0 <= i < |r| && r[i].Enter? ==>
      exists j :: 0 <= j < |inputs| && inputs[j].InputRef? && inputs[j].ref.Some? &&
        inputs[j].ref.value.ctgt != null && r[i] == Enter(Custom(inputs[j].ref.value.ctgt))
  {
    if inputs == [] then []
    else
      var x := inputs[|inputs| - 1];
      InputSteps(inputs[..|inputs| - 1]) +
        (if x.InputPath? || x.ref.None? then []
         else if x.ref.value.ctgt == null then [Abort(AttributeError)]
         else [Enter(Custom(x.ref.value.ctgt))])
  }

  /** Paths and missing references add no step: inputs holding no reference give none at all. */
  lemma {:induction false} InputStepsNoRefs(inputs: seq<Input>)
    requires forall j :: 0 <= j < |inputs| ==> inputs[j].InputPath? || inputs[j].ref.None?
    ensures InputSteps(inputs) == []
  {
    if inputs != [] {
      InputStepsNoRefs(inputs[..|inputs| - 1]);
    }
  }

  /**
   * Everything processing `d` visits, in order.  A build target: its link
   * targets, object libraries, custom dependencies and generated-source
   * references.  A custom target: the targets in its command, its input
   * references and its dependencies.
   */
  function Plan(d: Dep): (r: seq<Step>)
    reads d.Obj()
    ensures forall i :: 0 <= i < |r| && r[i].Filename? ==> r[i].ref.ctgt != null && d.Target? && r[i].ref.ctgt in RefTargets(d.t.generated)
  {
    if d.Target? then
      var links, libs := d.t.linkWith, d.t.objectLibs;
      seq(|links|, i requires 0 <= i < |links| => LinkStep(links[i])) +
      seq(|libs|, i requires 0 <= i < |libs| => Enter(Target(libs[i]))) +
      CustomDependSteps(d.t.depends) +
      GeneratedSteps(d.t.generated)
    else
      var deps := d.c.depends;
      CommandSteps(d.c.command) +
      InputSteps(d.c.inputs) +
      seq(|deps|, i requires 0 <= i < |deps| => Enter(deps[i]))
  }

  /** The steps of a build target fail only on a custom link target or a reference without a target. */
  lemma PlanAbortSound(t: ConverterTarget, i: nat)
    requires i < |Plan(Target(t))| && Plan(Target(t))[i].Abort?
    ensures TargetAborts(t)
  {
    var links, libs := t.linkWith, t.objectLibs;
    var a := seq(|links|, i requires 0 <= i < |links| => LinkStep(links[i]));
    var b := seq(|libs|, i requires 0 <= i < |libs| => Enter(Target(libs[i])));
    var c := CustomDependSteps(t.depends);
    var g := GeneratedSteps(t.generated);
    var p := Plan(Target(t));
    assert p == a + b + c + g;
    if i < |a| {
      assert links[i].Custom?;
    } else if i < |a| + |b| + |c| {
      assert false;
    } else {
      assert p[i] == g[i - |a| - |b| - |c|];
      GeneratedAbortSound(t.generated, i - |a| - |b| - |c|);
    }
  }

  /** A custom link target, or a reference without a target, makes a build target's steps fail. */
  lemma PlanAbortComplete(t: ConverterTarget)
    requires TargetAborts(t)
    ensures exists i :: 0 <= i < |Plan(Target(t))| && Plan(Target(t))[i].Abort?
  {
    var links, libs := t.linkWith, t.objectLibs;
    var a := seq(|links|, i requires 0 <= i < |links| => LinkStep(links[i]));
    var b := seq(|libs|, i requires 0 <= i < |libs| => Enter(Target(libs[i])));
    var c := CustomDependSteps(t.depends);
    var g := GeneratedSteps(t.generated);
    var p := Plan(Target(t));
    assert p == a + b + c + g;
    if exists j :: 0 <= j < |links| && links[j].Custom? {
      var j :| 0 <= j < |links| && links[j].Custom?;
      assert p[j].Abort?;
    } else {
      var j :| 0 <= j < |t.generated| && t.generated[j].GenRef? && t.generated[j].ref.ctgt == null;
      var i :| 0 <= i < |g| && g[i] == Abort(AttributeError);
      assert p[|a| + |b| + |c| + i] == g[i];
    }
  }

  /** The objects of a set of targets. */
  function Objs(world: set<Dep>): set<object> {
    set d | d in world :: d.Obj()
  }

  /** The names of a set of targets. */
  function Names(world: set<Dep>): set<string> {
    set d | d in world :: Name(d)
  }

  /** A set of targets that holds everything its members visit. */
  ghost predicate Closed(world: set<Dep>)
    reads Objs(world)
  {
    forall d, i :: d in world && 0 <= i < |Plan(d)| && Plan(d)[i].Enter? ==> Plan(d)[i].dep in world
  }

  /** The elements of a list. */
  function SetOf(s: seq<string>): set<string> {
    set x | x in s
  }

  /** Starting one more target leaves fewer targets to start. */
  lemma MeasureDrops(n: set<string>, p0: seq<string>, p: seq<string>, x: string)
    requires x in n && x !in p0 && p0 + [x] <= p
    ensures |n - SetOf(p)| < |n - SetOf(p0)|
  {
    assert forall y :: y in p0 + [x] ==> y in p;
    var a, b := n - SetOf(p), n - SetOf(p0);
    assert a <= b - {x};
    assert b - {x} == a + (b - {x} - a);
    assert |b - {x}| == |b| - 1;
  }

  /** Starting more targets never leaves more targets to start. */
  lemma MeasureShrinks(n: set<string>, p0: seq<string>, p: seq<string>)
    requires p0 <= p
    ensures |n - SetOf(p)| <= |n - SetOf(p0)|
  {
    assert forall y :: y in p0 ==> y in p;
    var a, b := n - SetOf(p), n - SetOf(p0);
    assert a <= b;
    assert b == a + (b - a);
  }

  // ---------------------------------------------------------------------------
  // The generated variables of a target
  // ---------------------------------------------------------------------------

  /** The variables `processed` records for a target: include directories, sources, dependency, target, Meson function. */
  datatype TargetVars = TargetVars(inc: Option<string>, src: Option<string>, dep: Option<string>, tgt: Option<string>, func: string)

  /**
   * The variables of a build target: a header-only target has no sources
   * and no target, only a dependency; static and shared libraries also
   * get a dependency; everything else has none.
   */
  function BuildVars(name: string, func: string): (r: TargetVars)
    ensures r.inc == Some(name + "_inc") && r.func == func
    ensures r.tgt.Some? <==> func != "header_only"
    ensures r.src.Some? <==> func != "header_only"
    ensures r.dep.Some? <==> func in {"header_only", "static_library", "shared_library"}
    ensures r.tgt.Some? ==> r.tgt == Some(name) && r.src == Some(name + "_src")
    ensures r.dep.Some? ==> r.dep == Some(name + "_dep")
  {
    if func == "header_only" then TargetVars(Some(name + "_inc"), None, Some(name + "_dep"), None, func)
    else TargetVars(Some(name + "_inc"), Some(name + "_src"), if func in {"static_library", "shared_library"} then Some(name + "_dep") else None, Some(name), func)
  }

  /** The variables recorded for `d` once processed. */
  function Vars(d: Dep): TargetVars {
    if d.Custom? then TargetVars(None, None, None, Some(d.c.name), "custom_target")
    else match MesonFunc(d.t.targetType)
      case Some(f) => BuildVars(d.t.name, f)
      case None => TargetVars(None, None, None, None, "")
  }

  /**
   * Whether some header among the outputs of the custom targets a build
   * target's generated sources refer to is neither one of the files those
   * references designate nor found by `get_ref`: the lookup then yields
   * None, which fails the assertion in `extract_tgt`.
   */
  predicate HeaderUnresolved(generated: seq<Generated>, isHeader: string -> bool)
    reads RefTargets(generated)
  {
    exists i, j | 0 <= i < |generated| && generated[i].GenRef? && generated[i].ref.ctgt != null && 0 <= j < |generated[i].ref.ctgt.outputs| ::
      var c := generated[i].ref.ctgt;
      isHeader(c.outputs[j]) && c.outputs[j] !in RefFilenames(generated) && c.GetRef(c.outputs[j]).None?
  }

  /** The custom targets generated sources refer to. */
  function RefTargets(generated: seq<Generated>): set<ConverterCustomTarget> {
    set i | 0 <= i < |generated| && generated[i].GenRef? && generated[i].ref.ctgt != null :: generated[i].ref.ctgt
  }

  /** `i.filename()` for each reference among the generated sources. */
  function RefFilenames(generated: seq<Generated>): (r: seq<string>)
    reads RefTargets(generated)
  {
    if generated == [] then []
    else
      var g := generated[|generated| - 1];
      assert RefTargets(generated[..|generated| - 1]) <= RefTargets(generated) by {
        forall i | 0 <= i < |generated| - 1 ensures generated[..|generated| - 1][i] == generated[i] { }
      }
      RefFilenames(generated[..|generated| - 1]) +
        (if g.GenPath? || g.ref.ctgt == null then []
         else match PyIndex(g.ref.ctgt.outputs, g.ref.index)
           case Some(f) => [f]
           case None => [])
  }

  /** The objects a step looks at: the custom target of a file-name lookup. */
  function StepObjs(s: Step): set<object> {
    if s.Filename? && s.ref.ctgt != null then {s.ref.ctgt} else {}
  }

  // ---------------------------------------------------------------------------
  // The traversal
  // ---------------------------------------------------------------------------

  /** The state of `pretend_to_be_meson`'s emission: started targets, processed targets and the CMake-to-Meson name map. */
  class Emitter {
    /** `is_header`, the test for a header file name. */
    const isHeader: string -> bool
    /** The names of the targets whose processing has started, never shortened. */
    var processing: seq<string>
    /** The variables of each processed target. */
    var processed: map<string, TargetVars>
    /** The processed names in the order they were added. */
    var order: seq<string>
    /** The Meson name of each processed build target, by CMake name. */
    var nameMap: map<string, string>

    ghost predicate Valid()
      reads this
    {
      NoDup(order) &&
      (forall k :: k in processed <==> k in order) &&
      (forall k :: k in processed ==> k in processing) &&
      (forall c :: c in nameMap ==> nameMap[c] in processed)
    }

    constructor (isHeader: string -> bool)
      ensures this.isHeader == isHeader
      ensures processing == [] && processed == map[] && order == [] && nameMap == map[]
      ensures Valid()
    {
      this.isHeader := isHeader;
      processing, processed, order, nameMap := [], map[], [], map[];
    }

    /** No entry of `processed` present before was changed or removed. */
    ghost predicate Kept(before: map<string, TargetVars>)
      reads this
    {
      forall k :: k in before ==> k in processed && processed[k] == before[k]
    }

    /** Every entry of `processed` added since was started after `started`. */
    ghost predicate FreshSince(before: map<string, TargetVars>, started: seq<string>)
      reads this
    {
      forall k :: k in processed && k !in before ==> k in processing && k !in started
    }

    /** Every target started after `started` was processed. */
    ghost predicate Finished(started: seq<string>)
      reads this
    {
      forall k :: k in processing && k !in started ==> k in processed
    }

    /** The objects a step looks at besides the emitter. */
    ghost predicate Done(s: Step)
      reads this, StepObjs(s)
    {
      match s
      case Enter(x) => Name(x) in processed
      case Filename(ref) => ref.ctgt != null && PyIndex(ref.ctgt.outputs, ref.index).Some?
      case Abort(_) => false
    }

    /**
     * `process_target` and `process_custom_target`: a target whose
     * processing has already started and not finished is a cycle; otherwise
     * everything it visits is processed first, in order, and only then is
     * it recorded, after every target it visited.  A build target whose
     * generated headers cannot be found, or whose type has no Meson
     * function, raises instead.
     */
    method Visit(d: Dep, ghost world: set<Dep>) returns (err: Option<CMakeError>)
      requires Valid() && Closed(world) && d in world && Name(d) !in processed
      modifies this
      decreases |Names(world) - SetOf(processing)|, 1
      ensures Valid() && Kept(old(processed)) && FreshSince(old(processed), old(processing))
      ensures old(processing) <= processing && old(order) <= order
      ensures Name(d) in old(processing) ==>
        err == Some(CycleDetected) && processing == old(processing) && processed == old(processed) && order == old(order) && nameMap == old(nameMap)
      ensures err.None? ==> Finished(old(processing)) && Name(d) !in old(processing)
      ensures err.None? ==> |order| > 0 && order[|order| - 1] == Name(d) && processed[Name(d)] == Vars(d)
      ensures err.None? ==> forall i :: 0 <= i < |old(Plan(d))| ==> Done(old(Plan(d))[i])
      ensures err.None? ==> forall i :: 0 <= i < |old(Plan(d))| && old(Plan(d))[i].Enter? ==> Name(old(Plan(d))[i].dep) in order[..|order| - 1]
      ensures err.None? && d.Target? ==>
        MesonFunc(d.t.targetType).Some? && !old(HeaderUnresolved(d.t.generated, isHeader)) && d.t.cmakeName in nameMap && nameMap[d.t.cmakeName] == Name(d)
      ensures d.Target? && MesonFunc(d.t.targetType).None? ==> err.Some?
    {
      if Name(d) in processing {
        err := Some(CycleDetected);
      } else {
        err := Start(d, world);
      }
    }

    /** Processing a target not yet started: its steps, its checks, then its record. */
    method Start(d: Dep, ghost world: set<Dep>) returns (err: Option<CMakeError>)
      requires Valid() && Closed(world) && d in world && Name(d) !in processing
      modifies this
      decreases |Names(world) - SetOf(processing)|, 0
      ensures Valid() && Kept(old(processed)) && FreshSince(old(processed), old(processing))
      ensures old(processing) <= processing && old(order) <= order
      ensures err.None? ==> Finished(old(processing))
      ensures err.None? ==> |order| > 0 && order[|order| - 1] == Name(d) && processed[Name(d)] == Vars(d)
      ensures err.None? ==> forall i :: 0 <= i < |old(Plan(d))| ==> Done(old(Plan(d))[i])
      ensures err.None? ==> forall i :: 0 <= i < |old(Plan(d))| && old(Plan(d))[i].Enter? ==> Name(old(Plan(d))[i].dep) in order[..|order| - 1]
      ensures err.None? && d.Target? ==>
        MesonFunc(d.t.targetType).Some? && !old(HeaderUnresolved(d.t.generated, isHeader)) && d.t.cmakeName in nameMap && nameMap[d.t.cmakeName] == Name(d)
      ensures d.Target? && MesonFunc(d.t.targetType).None? ==> err.Some?
    {
      var name := Name(d);
      var plan := Plan(d);
      var unresolved := d.Target? && HeaderUnresolved(d.t.generated, isHeader);
      assert forall o :: o in Objs(world) ==> allocated(o) && o != this;
      assert name in Names(world);
      processing := processing + [name];
      MeasureDrops(Names(world), old(processing), processing, name);
      err := Proceed(d, plan, unresolved, world, old(processing));
    }

    /** The steps of a started target, then its checks and its record. */
    method Proceed(d: Dep, plan: seq<Step>, unresolved: bool, ghost world: set<Dep>, ghost before: seq<string>) returns (err: Option<CMakeError>)
      requires Valid() && Closed(world) && processing == before + [Name(d)] && Name(d) !in before && Name(d) !in processed
      requires forall i :: 0 <= i < |plan| && plan[i].Enter? ==> plan[i].dep in world
      modifies this
      decreases |Names(world) - SetOf(processing)|, 4
      ensures Valid() && Kept(old(processed)) && FreshSince(old(processed), before)
      ensures before <= processing && old(order) <= order
      ensures err.None? ==> Finished(before)
      ensures err.None? ==> |order| > 0 && order[|order| - 1] == Name(d) && processed[Name(d)] == Vars(d)
      ensures err.None? ==> forall i :: 0 <= i < |plan| ==> Done(plan[i])
      ensures err.None? ==> forall i :: 0 <= i < |plan| && plan[i].Enter? ==> Name(plan[i].dep) in order[..|order| - 1]
      ensures err.None? ==> !unresolved && !(d.Target? && MesonFunc(d.t.targetType).None?)
      ensures err.None? && d.Target? ==> d.t.cmakeName in nameMap && nameMap[d.t.cmakeName] == Name(d)
      ensures unresolved || (d.Target? && MesonFunc(d.t.targetType).None?) ==> err.Some?
    {
      err := TakeAll(plan, world);
      if err.None? {
        assert processing[|before|] == Name(d);
        err := Finish(d, plan, unresolved);
      }
    }

    /**
     * The end of processing a build or custom target whose steps all
     * succeeded: a build target with an unresolved header or an unknown
     * type raises, anything else is recorded.
     */
    method Finish(d: Dep, ghost plan: seq<Step>, unresolved: bool) returns (err: Option<CMakeError>)
      requires Valid() && Name(d) in processing && Name(d) !in processed
      requires forall i :: 0 <= i < |plan| ==> Done(plan[i])
      modifies this`processed, this`order, this`nameMap
      ensures Valid() && Kept(old(processed)) && old(order) <= order
      ensures err.None? <==> !unresolved && !(d.Target? && MesonFunc(d.t.targetType).None?)
      ensures err.None? ==> processed == old(processed)[Name(d) := Vars(d)] && order == old(order) + [Name(d)]
      ensures err.None? ==> forall i :: 0 <= i < |plan| ==> Done(plan[i])
      ensures err.None? ==> forall i :: 0 <= i < |plan| && plan[i].Enter? ==> Name(plan[i].dep) in order[..|order| - 1]
      ensures err.None? && d.Target? ==> d.t.cmakeName in nameMap && nameMap[d.t.cmakeName] == Name(d)
      ensures err.Some? ==> processed == old(processed) && order == old(order)
    {
      if unresolved {
        return Some(AssertionFailed);
      }
      if d.Target? && MesonFunc(d.t.targetType).None? {
        return Some(UnknownTargetType(d.t.targetType));
      }
      Record(d);
      err := None;
    }

    /** Every step of a plan in turn, stopping at the first that raises. */
    method TakeAll(plan: seq<Step>, ghost world: set<Dep>) returns (err: Option<CMakeError>)
      requires Valid() && Closed(world)
      requires forall i :: 0 <= i < |plan| && plan[i].Enter? ==> plan[i].dep in world
      modifies this
      decreases |Names(world) - SetOf(processing)|, 3
      ensures Valid() && Kept(old(processed)) && FreshSince(old(processed), old(processing))
      ensures old(processing) <= processing && old(order) <= order
      ensures err.None? ==> Finished(old(processing)) && forall i :: 0 <= i < |plan| ==> Done(plan[i])
    {
      assert forall o :: o in Objs(world) ==> allocated(o) && o != this;
      var k := 0;
      while k < |plan|
        invariant 0 <= k <= |plan|
        invariant Valid() && Closed(world) && Kept(old(processed))
        invariant old(processing) <= processing && old(order) <= order
        invariant FreshSince(old(processed), old(processing)) && Finished(old(processing))
        invariant forall i :: 0 <= i < k ==> Done(plan[i])
      {
        MeasureShrinks(Names(world), old(processing), processing);
        err := Take(plan[k], world);
        if err.Some? {
          return;
        }
        k := k + 1;
      }
      err := None;
    }

    /** Records a processed target: its variables, its place in the order and, for a build target, its CMake name. */
    method Record(d: Dep)
      requires Valid() && Name(d) !in processed
      modifies this`processed, this`order, this`nameMap
      ensures processed == old(processed)[Name(d) := Vars(d)] && order == old(order) + [Name(d)]
      ensures nameMap == if d.Target? then old(nameMap)[d.t.cmakeName := Name(d)] else old(nameMap)
      ensures Name(d) in processing ==> Valid()
    {
      if d.Target? {
        nameMap := nameMap[d.t.cmakeName := Name(d)];
      }
      processed := processed[Name(d) := Vars(d)];
      order := order + [Name(d)];
    }

    /**
     * One step of processing a target: an unprocessed target it names is
     * processed, a file name is looked up (an index out of range raises),
     * and a failed check raises.
     */
    method Take(s: Step, ghost world: set<Dep>) returns (err: Option<CMakeError>)
      requires Valid() && Closed(world) && (s.Enter? ==> s.dep in world)
      modifies this
      decreases |Names(world) - SetOf(processing)|, 2
      ensures Valid() && Kept(old(processed)) && FreshSince(old(processed), old(processing))
      ensures old(processing) <= processing && old(order) <= order
      ensures err.None? ==> Finished(old(processing)) && Done(s)
      ensures s.Abort? ==> err == Some(s.error)
    {
      match s {
        case Abort(e) =>
          return Some(e);
        case Filename(ref) =>
          if ref.ctgt == null || PyIndex(ref.ctgt.outputs, ref.index).None? {
            return Some(if ref.ctgt == null then AttributeError else IndexError);
          }
          return None;
        case Enter(x) =>
          if Name(x) !in processed {
            err := Visit(x, world);
          } else {
            err := None;
          }
      }
    }

    /**
     * The emission loops: every custom target, then every build target,
     * is processed unless a target of that name already was.  On success
     * every target of both lists is recorded, and every target whose
     * processing started was recorded.
     */
    method Emit(customs: seq<ConverterCustomTarget>, targets: seq<ConverterTarget>, ghost world: set<Dep>) returns (err: Option<CMakeError>)
      requires Closed(world)
      requires forall i :: 0 <= i < |customs| ==> Custom(customs[i]) in world
      requires forall i :: 0 <= i < |targets| ==> Target(targets[i]) in world
      modifies this
      ensures Valid()
      ensures err.None? ==> forall i :: 0 <= i < |customs| ==> customs[i].name in processed
      ensures err.None? ==> forall i :: 0 <= i < |targets| ==> targets[i].name in processed
      ensures err.None? ==> forall k :: k in processing <==> k in processed
    {
      assert forall o :: o in Objs(world) ==> allocated(o) && o != this;
      processing, processed, order, nameMap := [], map[], [], map[];
      var cs := seq(|customs|, i requires 0 <= i < |customs| => Custom(customs[i]));
      var ts := seq(|targets|, i requires 0 <= i < |targets| => Target(targets[i]));
      err := EmitEach(cs, world);
      if err.Some? {
        return;
      }
      ghost var mid := processed;
      err := EmitEach(ts, world);
      if err.None? {
        forall i | 0 <= i < |customs| ensures customs[i].name in processed {
          assert Name(cs[i]) in mid;
        }
        forall i | 0 <= i < |targets| ensures targets[i].name in processed {
          assert Name(ts[i]) in processed;
        }
      }
    }

    /** One emission loop: each target of the list not yet processed is processed in turn. */
    method EmitEach(ds: seq<Dep>, ghost world: set<Dep>) returns (err: Option<CMakeError>)
      requires Valid() && Closed(world) && Finished([])
      requires forall i :: 0 <= i < |ds| ==> ds[i] in world
      modifies this
      ensures Valid() && Kept(old(processed))
      ensures err.None? ==> Finished([]) && forall i :: 0 <= i < |ds| ==> Name(ds[i]) in processed
    {
      assert forall o :: o in Objs(world) ==> allocated(o) && o != this;
      var k := 0;
      while k < |ds|
        invariant 0 <= k <= |ds|
        invariant Valid() && Closed(world) && Finished([]) && Kept(old(processed))
        invariant forall i :: 0 <= i < k ==> Name(ds[i]) in processed
      {
        if Name(ds[k]) !in processed {
          err := Visit(ds[k], world);
          if err.Some? {
            return;
          }
        }
        k := k + 1;
      }
      err := None;
    }

    /**
     * `target_info`: the variables of the target `cm_<target>` when there
     * is one, otherwise those of the target the CMake name `target` was
     * converted to, otherwise nothing.  The name map only ever names
     * recorded targets, so the lookup never fails its assertion.
     */
    function TargetInfo(target: string): (r: Outcome<Option<TargetVars>>)
      reads this
      ensures GeneratedTargetNamePrefix + target in processed ==> r == Value(Some(processed[GeneratedTargetNamePrefix + target]))
      ensures GeneratedTargetNamePrefix + target !in processed && target in nameMap && nameMap[target] in processed ==>
        r == Value(Some(processed[nameMap[target]]))
      ensures r == Value(None) <==> GeneratedTargetNamePrefix + target !in processed && target !in nameMap
      ensures r.Raise? ==> r.error == AssertionFailed
      ensures Valid() ==> r.Value?
    {
      var prefixed := GeneratedTargetNamePrefix + target;
      if prefixed in processed then Value(Some(processed[prefixed]))
      else if target in nameMap then
        if nameMap[target] in processed then Value(Some(processed[nameMap[target]])) else Raise(AssertionFailed)
      else Value(None)
    }

    /** `target_list`: the processed names in the order they were recorded, without the `cm_` prefix. */
    function TargetList(): (r: seq<string>)
      reads this
      ensures |r| == |order|
      ensures forall i :: 0 <= i < |r| ==> r[i] == ListedName(order[i])
    {
      seq(|order|, i requires 0 <= i < |order| reads this => ListedName(order[i]))
    }

    /** Asking for a listed name that carried the prefix gives back that target's variables. */
    lemma ListedInfo(i: nat)
      requires Valid() && i < |order| && StartsWith(order[i], GeneratedTargetNamePrefix)
      ensures TargetInfo(TargetList()[i]) == Value(Some(processed[order[i]]))
    {
      assert GeneratedTargetNamePrefix + TargetList()[i] == order[i];
    }
  }
}
