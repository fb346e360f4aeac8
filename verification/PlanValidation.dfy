/** Tool plans proposed by the language model, and the gate they must pass. */
module PlanValidation {
  import opened Basics

  datatype Tool = Search | Read

  datatype Step = Step(id: string, tool: Tool, argument: string, dependsOn: seq<string>)

  predicate IsIdChar(c: char) {
    'a' <= c <= 'z' || 'A' <= c <= 'Z' || '0' <= c <= '9' || c == '_' || c == '-'
  }

  predicate IsStepId(s: string) {
    1 <= |s| <= 32 && forall i :: 0 <= i < |s| ==> IsIdChar(s[i])
  }

  function ToolName(tool: Tool): string {
    match tool
    case Search => "search"
    case Read => "read"
  }

  function ArgumentName(tool: Tool): string {
    match tool
    case Search => "query"
    case Read => "document_id"
  }

  /** What the rest of the system relies on: a short, topologically ordered plan. */
  ghost predicate WellFormed(plan: seq<Step>) {
    && 1 <= |plan| <= 8
    && (forall i :: 0 <= i < |plan| ==> IsStepId(plan[i].id) && 1 <= |plan[i].argument| <= 1000)
    && (forall i, j :: 0 <= i < j < |plan| ==> plan[i].id != plan[j].id)
    && (forall i :: 0 <= i < |plan| ==> DependenciesPrecede(plan, i))
  }

  ghost predicate DependenciesPrecede(plan: seq<Step>, i: nat)
    requires i < |plan|
  {
    forall d :: d in plan[i].dependsOn ==> exists j :: 0 <= j < i && plan[j].id == d
  }

  /** How a plan is written as JSON. */
  function EncodeStep(step: Step): Json {
    Obj(map["id" := Str(step.id),
            "tool" := Str(ToolName(step.tool)),
            "arguments" := Obj(map[ArgumentName(step.tool) := Str(step.argument)]),
            "depends_on" := Arr(seq(|step.dependsOn|, i requires 0 <= i < |step.dependsOn| => Str(step.dependsOn[i])))])
  }

  function Encode(plan: seq<Step>): Json {
    Obj(map["steps" := Arr(seq(|plan|, i requires 0 <= i < |plan| => EncodeStep(plan[i])))])
  }

  predicate AllStrings(items: seq<Json>) {
    forall i :: 0 <= i < |items| ==> items[i].Str?
  }

  function Texts(items: seq<Json>): (r: seq<string>)
    requires AllStrings(items)
  {
    seq(|items|, i requires 0 <= i < |items| => items[i].text)
  }

  /** One loop iteration of the gate: the step it accepts given the identities already seen. */
  function ReadStep(item: Json, seen: set<string>): Option<Step> {
    if !item.Obj? || item.fields.Keys != {"id", "tool", "arguments", "depends_on"} then None
    else
      var id, deps, args, tool :=
        item.fields["id"], item.fields["depends_on"], item.fields["arguments"], item.fields["tool"];
      if !id.Str? || !IsStepId(id.text) || id.text in seen then None
      else if !deps.Arr? || !AllStrings(deps.items) || (exists i :: 0 <= i < |deps.items| && deps.items[i].text !in seen) then None
      else if !args.Obj? || !tool.Str? || tool.text !in ["search", "read"] then None
      else
        var name := if tool.text == "search" then Search else Read;
        var field := ArgumentName(name);
        if args.fields.Keys != {field} || !args.fields[field].Str? || !(1 <= |args.fields[field].text| <= 1000) then None
        else Some(Step(id.text, name, args.fields[field].text, Texts(deps.items)))
  }

  /** The loop invariant of the gate: the first |steps| items have been read as `steps`. */
  ghost predicate ReadSoFar(items: seq<Json>, steps: seq<Step>, seen: set<string>) {
    && |steps| <= |items|
    && (forall i :: 0 <= i < |steps| ==> items[i] == EncodeStep(steps[i]))
    && Ordered(steps, seen)
  }

  ghost predicate Ordered(steps: seq<Step>, seen: set<string>) {
    && (forall i :: 0 <= i < |steps| ==> IsStepId(steps[i].id) && 1 <= |steps[i].argument| <= 1000)
    && (forall i :: 0 <= i < |steps| ==> steps[i].id in seen)
    && (forall d :: d in seen ==> exists i :: 0 <= i < |steps| && steps[i].id == d)
    && (forall i, j :: 0 <= i < j < |steps| ==> steps[i].id != steps[j].id)
    && (forall i :: 0 <= i < |steps| ==> DependenciesPrecede(steps, i))
  }

  lemma ExtendOrdered(steps: seq<Step>, seen: set<string>, s: Step)
    requires Ordered(steps, seen)
    requires IsStepId(s.id) && s.id !in seen && 1 <= |s.argument| <= 1000
    requires forall d :: d in s.dependsOn ==> d in seen
    ensures Ordered(steps + [s], seen + {s.id})
  {
    hide IsStepId;
    var n, next := |steps|, steps + [s];
    assert forall i :: 0 <= i < n ==> next[i] == steps[i];
    assert next[n] == s;
    forall i | 0 <= i < |next|
      ensures DependenciesPrecede(next, i)
    {
      if i < n {
        assert DependenciesPrecede(steps, i);
        PrefixDependencies(steps, s, i);
      } else {
        LastDependencies(steps, seen, s);
      }
    }
    hide DependenciesPrecede;
    forall d | d in seen + {s.id}
      ensures exists i :: 0 <= i < |next| && next[i].id == d
    {
      if d in seen {
        var i :| 0 <= i < n && steps[i].id == d;
        assert next[i].id == d;
      } else {
        assert next[n].id == d;
      }
    }
  }

  lemma PrefixDependencies(steps: seq<Step>, s: Step, i: nat)
    requires i < |steps| && DependenciesPrecede(steps, i)
    ensures DependenciesPrecede(steps + [s], i)
  {
    forall d | d in steps[i].dependsOn
      ensures exists j :: 0 <= j < i && (steps + [s])[j].id == d
    {
      var j :| 0 <= j < i && steps[j].id == d;
      assert (steps + [s])[j].id == d;
    }
  }

  lemma LastDependencies(steps: seq<Step>, seen: set<string>, s: Step)
    requires forall d :: d in seen ==> exists i :: 0 <= i < |steps| && steps[i].id == d
    requires forall d :: d in s.dependsOn ==> d in seen
    ensures DependenciesPrecede(steps + [s], |steps|)
  {
    forall d | d in s.dependsOn
      ensures exists j :: 0 <= j < |steps| && (steps + [s])[j].id == d
    {
      var j :| 0 <= j < |steps| && steps[j].id == d;
      assert (steps + [s])[j].id == d;
    }
  }

  /** The plan a JSON document stands for: the well-formed plan it encodes, if there is one. */
  ghost function PlanOf(j: Json): (r: Option<seq<Step>>)
    ensures r.Some? ==> WellFormed(r.value) && j == Encode(r.value)
    ensures r.None? ==> !exists p :: WellFormed(p) && j == Encode(p)
  {
    if exists p :: WellFormed(p) && j == Encode(p) then
      var p :| WellFormed(p) && j == Encode(p);
      Some(p)
    else None
  }

  /** `validate_plan`: accepts exactly the encodings of well-formed plans and returns the plan it read. */
  method ValidatePlan(plan: Json) returns (r: Option<seq<Step>>)
    ensures r.Some? ==> WellFormed(r.value) && plan == Encode(r.value)
    ensures r.None? ==> !exists p :: WellFormed(p) && plan == Encode(p)
    ensures r == PlanOf(plan)
  {
    if !plan.Obj? || plan.fields.Keys != {"steps"} || !plan.fields["steps"].Arr?
       || !(1 <= |plan.fields["steps"].items| <= 8) {
      return None;
    }
    var items := plan.fields["steps"].items;
    var seen: set<string> := {};
    var steps: seq<Step> := [];
    for n := 0 to |items|
      invariant |steps| == n && ReadSoFar(items, steps, seen)
    {
      var read := ReadStep(items[n], seen);
      if read.None? {
        forall p | WellFormed(p) && plan == Encode(p)
          ensures false
        {
          RejectionIsJustified(items, p, steps, seen);
        }
        return None;
      }
      ReadStepEncodes(items[n], seen);
      ExtendOrdered(steps, seen, read.value);
      steps := steps + [read.value];
      seen := seen + {read.value.id};
    }
    hide ReadStep, IsStepId, DependenciesPrecede;
    assert items == Encode(steps).fields["steps"].items;
    assert plan.fields == Encode(steps).fields;
    EncodeInjective(steps, PlanOf(plan).value);
    return Some(steps);
  }

  /** An accepted item is the encoding of the step that was read, with its dependencies already seen. */
  lemma ReadStepEncodes(item: Json, seen: set<string>)
    requires ReadStep(item, seen).Some?
    ensures var s := ReadStep(item, seen).value;
            && item == EncodeStep(s) && IsStepId(s.id) && s.id !in seen && 1 <= |s.argument| <= 1000
            && forall d :: d in s.dependsOn ==> d in seen
  {
    var s := ReadStep(item, seen).value;
    var deps := item.fields["depends_on"].items;
    assert deps == EncodeStep(s).fields["depends_on"].items;
    assert item.fields["arguments"].fields == EncodeStep(s).fields["arguments"].fields;
    assert item.fields == EncodeStep(s).fields;
    forall d | d in s.dependsOn
      ensures d in seen
    {
      var i :| 0 <= i < |s.dependsOn| && s.dependsOn[i] == d;
      assert deps[i].text in seen;
    }
  }

  /** Conversely the encoding of a step with fresh identity and known dependencies is read back. */
  lemma EncodedStepIsRead(s: Step, seen: set<string>)
    requires IsStepId(s.id) && s.id !in seen && 1 <= |s.argument| <= 1000
    requires forall d :: d in s.dependsOn ==> d in seen
    ensures ReadStep(EncodeStep(s), seen) == Some(s)
  {
    var deps := EncodeStep(s).fields["depends_on"].items;
    assert Texts(deps) == s.dependsOn;
    forall i | 0 <= i < |deps|
      ensures deps[i].text in seen
    {
      assert s.dependsOn[i] in s.dependsOn;
    }
  }

  lemma EncodeStepInjective(a: Step, b: Step)
    requires EncodeStep(a) == EncodeStep(b)
    ensures a == b
  {
    var fa, fb := EncodeStep(a).fields, EncodeStep(b).fields;
    assert fa["id"] == fb["id"] && fa["tool"] == fb["tool"] && fa["arguments"] == fb["arguments"] && fa["depends_on"] == fb["depends_on"];
    var da, db := fa["depends_on"].items, fb["depends_on"].items;
    assert |a.dependsOn| == |da| == |db| == |b.dependsOn|;
    forall i | 0 <= i < |a.dependsOn|
      ensures a.dependsOn[i] == b.dependsOn[i]
    {
      assert da[i] == db[i];
    }
    assert a.tool == b.tool;
    assert fa["arguments"].fields[ArgumentName(a.tool)] == fb["arguments"].fields[ArgumentName(a.tool)];
  }

  /** If the gate refuses the next item, no well-formed plan encodes to these items. */
  lemma RejectionIsJustified(items: seq<Json>, p: seq<Step>, steps: seq<Step>, seen: set<string>)
    requires WellFormed(p) && Encode(p).fields["steps"].items == items
    requires ReadSoFar(items, steps, seen) && |steps| < |items|
    ensures ReadStep(items[|steps|], seen).Some?
  {
    var n := |steps|;
    forall i | 0 <= i < n
      ensures steps[i] == p[i]
    {
      assert items[i] == EncodeStep(p[i]);
      EncodeStepInjective(steps[i], p[i]);
    }
    assert p[n].id !in seen;
    assert DependenciesPrecede(p, n);
    forall d | d in p[n].dependsOn
      ensures d in seen
    {
      var j :| 0 <= j < n && p[j].id == d;
      assert steps[j].id == d;
    }
    EncodedStepIsRead(p[n], seen);
    assert items[n] == EncodeStep(p[n]);
  }

  /** Two plans with the same JSON are the same plan, so the plan the gate returns is the only reading. */
  lemma EncodeInjective(p: seq<Step>, q: seq<Step>)
    requires Encode(p) == Encode(q)
    ensures p == q
  {
    var a, b := Encode(p).fields["steps"].items, Encode(q).fields["steps"].items;
    assert |p| == |a| == |b| == |q|;
    forall i | 0 <= i < |p|
      ensures p[i] == q[i]
    {
      assert a[i] == b[i];
      EncodeStepInjective(p[i], q[i]);
    }
  }

  /** Every well-formed plan is what its own JSON is read as. */
  lemma PlanRoundTrip(p: seq<Step>)
    requires WellFormed(p)
    ensures PlanOf(Encode(p)) == Some(p)
  {
    var r := PlanOf(Encode(p));
    assert r.Some?;
    EncodeInjective(r.value, p);
  }

  function StepJson(id: string, tool: string, arguments: map<string, Json>, dependsOn: seq<Json>): Json {
    Obj(map["id" := Str(id), "tool" := Str(tool), "arguments" := Obj(arguments), "depends_on" := Arr(dependsOn)])
  }

  /** The two tools with their own argument names, spelt out: search for a query, then read a document. */
  lemma SearchThenRead(query: string, document: string)
    requires 1 <= |query| <= 1000 && 1 <= |document| <= 1000
    ensures var search, read := StepJson("s1", "search", map["query" := Str(query)], []),
                                StepJson("s2", "read", map["document_id" := Str(document)], [Str("s1")]);
      PlanOf(Obj(map["steps" := Arr([search, read])]))
      == Some([Step("s1", Search, query, []), Step("s2", Read, document, ["s1"])])
  {
    var plan := [Step("s1", Search, query, []), Step("s2", Read, document, ["s1"])];
    assert plan[0].id == "s1" && DependenciesPrecede(plan, 0) && DependenciesPrecede(plan, 1);
    assert "s1"[1] != "s2"[1];
    PlanRoundTrip(plan);
    var items := Encode(plan).fields["steps"].items;
    assert EncodeStep(plan[0]).fields["depends_on"].items == [] && EncodeStep(plan[1]).fields["depends_on"].items == [Str("s1")];
    assert items == [StepJson("s1", "search", map["query" := Str(query)], []),
                     StepJson("s2", "read", map["document_id" := Str(document)], [Str("s1")])];
  }
}
