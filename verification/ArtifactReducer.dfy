/**
 `Task::apply_artifact_update` and `Task::truncate_history` (ra2a/src/types/task.rs): the artifact
 list as a fold over streamed chunks, and a closed form of that fold that mentions no state.
 */
module ArtifactReducer {
  import opened Wrappers
  import opened Types

  // ---- One update --------------------------------------------------------------------------

  /** `iter().position(..)`: the first artifact with this id. */
  function Position(artifacts: seq<Artifact>, id: string): (r: Option<nat>)
    ensures r.Some? ==> r.value < |artifacts| && artifacts[r.value].artifactId == id
                        && forall j :: 0 <= j < r.value ==> artifacts[j].artifactId != id
    ensures r.None? <==> forall j :: 0 <= j < |artifacts| ==> artifacts[j].artifactId != id
  {
    if artifacts == [] then None
    else if artifacts[0].artifactId == id then Some(0)
    else
      match Position(artifacts[1..], id)
      case None =>
        assert forall j :: 0 < j < |artifacts| ==> artifacts[j] == artifacts[1..][j - 1];
        None
      case Some(i) => Some(i + 1)
  }

  function Apply(artifacts: seq<Artifact>, e: ArtifactUpdate): seq<Artifact> {
    match Position(artifacts, e.artifact.artifactId)
    case Some(i) =>
      artifacts[i := if e.append then artifacts[i].(parts := artifacts[i].parts + e.artifact.parts)
                     else e.artifact]
    case None => if e.append then artifacts else artifacts + [e.artifact]
  }

  function ApplyAll(artifacts: seq<Artifact>, events: seq<ArtifactUpdate>): seq<Artifact> {
    if events == [] then artifacts
    else Apply(ApplyAll(artifacts, events[..|events| - 1]), events[|events| - 1])
  }

  /** A task whose lists are updated in place. */
  class LiveTask {
    var artifacts: seq<Artifact>
    var history: seq<Message>

    constructor (artifacts: seq<Artifact>, history: seq<Message>)
      ensures this.artifacts == artifacts && this.history == history
    {
      this.artifacts := artifacts;
      this.history := history;
    }

    method ApplyArtifactUpdate(e: ArtifactUpdate)
      modifies this`artifacts
      ensures artifacts == Apply(old(artifacts), e)
    {
      var existing := Position(artifacts, e.artifact.artifactId);
      if !e.append {
        if existing.Some? {
          artifacts := artifacts[existing.value := e.artifact];
        } else {
          artifacts := artifacts + [e.artifact];
        }
      } else if existing.Some? {
        var a := artifacts[existing.value];
        artifacts := artifacts[existing.value := a.(parts := a.parts + e.artifact.parts)];
      }
    }

    /** Keeps the last n messages. */
    method TruncateHistory(n: nat)
      modifies this`history
      ensures |history| == if |old(history)| < n then |old(history)| else n
      ensures exists dropped :: old(history) == dropped + history
    {
      ghost var before := history;
      if |history| > n {
        var start := |history| - n;
        history := history[start..];
        assert before == before[..start] + history;
      } else {
        assert before == [] + history;
      }
    }
  }

  // ---- Closed form -------------------------------------------------------------------------

  function Ids(artifacts: seq<Artifact>): (r: seq<string>)
    ensures |r| == |artifacts|
    ensures forall i :: 0 <= i < |r| ==> r[i] == artifacts[i].artifactId
  {
    seq(|artifacts|, i requires 0 <= i < |artifacts| => artifacts[i].artifactId)
  }

  ghost predicate Distinct(ids: seq<string>) {
    forall i, j :: 0 <= i < j < |ids| ==> ids[i] != ids[j]
  }

  function Lookup(artifacts: seq<Artifact>, id: string): Option<Artifact> {
    match Position(artifacts, id)
    case Some(i) => Some(artifacts[i])
    case None => None
  }

  function EventsFor(events: seq<ArtifactUpdate>, id: string): seq<ArtifactUpdate> {
    if events == [] then []
    else
      var last := events[|events| - 1];
      EventsFor(events[..|events| - 1], id) + if last.artifact.artifactId == id then [last] else []
  }

  /** Index just past the last replacing event; 0 if every event appends. */
  function AfterLastReplace(events: seq<ArtifactUpdate>): (r: nat)
    ensures r <= |events|
    ensures r > 0 ==> !events[r - 1].append
    ensures forall i :: r <= i < |events| ==> events[i].append
  {
    if events == [] then 0
    else if !events[|events| - 1].append then |events|
    else AfterLastReplace(events[..|events| - 1])
  }

  function AllParts(events: seq<ArtifactUpdate>): seq<Part> {
    if events == [] then []
    else AllParts(events[..|events| - 1]) + events[|events| - 1].artifact.parts
  }

  /** What one id's own events make of its initial artifact. */
  function ClosedForm(initial: Option<Artifact>, own: seq<ArtifactUpdate>): Option<Artifact> {
    var r := AfterLastReplace(own);
    var base := if r > 0 then Some(own[r - 1].artifact) else initial;
    match base
    case None => None
    case Some(a) => Some(a.(parts := a.parts + AllParts(own[r..])))
  }

  /** Keeps the first occurrence of every id. */
  function FirstOccurrences(ids: seq<string>): (r: seq<string>)
    ensures Distinct(r)
    ensures forall id :: id in r <==> id in ids
  {
    if ids == [] then []
    else
      var init, last := ids[..|ids| - 1], ids[|ids| - 1];
      assert ids == init + [last];
      if last in init then FirstOccurrences(init) else FirstOccurrences(init) + [last]
  }

  /** Ids of the replacing events, in order. */
  function Creations(events: seq<ArtifactUpdate>): seq<string> {
    if events == [] then []
    else
      var last := events[|events| - 1];
      Creations(events[..|events| - 1]) + if last.append then [] else [last.artifact.artifactId]
  }

  // ---- One step ----------------------------------------------------------------------------

  lemma IdMembership(artifacts: seq<Artifact>, id: string)
    ensures id in Ids(artifacts) <==> Position(artifacts, id).Some?
  {
    if id in Ids(artifacts) {
      var i :| 0 <= i < |Ids(artifacts)| && Ids(artifacts)[i] == id;
      assert artifacts[i].artifactId == id;
    }
  }

  lemma ApplyIds(artifacts: seq<Artifact>, e: ArtifactUpdate)
    ensures var id := e.artifact.artifactId;
            Ids(Apply(artifacts, e)) == if e.append || id in Ids(artifacts) then Ids(artifacts)
                                        else Ids(artifacts) + [id]
  {
    IdMembership(artifacts, e.artifact.artifactId);
  }

  lemma LookupUnique(artifacts: seq<Artifact>, i: nat)
    requires Distinct(Ids(artifacts)) && i < |artifacts|
    ensures Lookup(artifacts, artifacts[i].artifactId) == Some(artifacts[i])
  {
    var p := Position(artifacts, artifacts[i].artifactId).value;
    var ids := Ids(artifacts);
    assert ids[p] == ids[i];
  }

  lemma ApplyKeepsDistinct(artifacts: seq<Artifact>, e: ArtifactUpdate)
    requires Distinct(Ids(artifacts))
    ensures Distinct(Ids(Apply(artifacts, e)))
  {
    ApplyIds(artifacts, e);
  }

  /** An update touches its own id only, whatever else is in the list. */
  lemma ApplyLookup(artifacts: seq<Artifact>, e: ArtifactUpdate, id: string)
    requires Distinct(Ids(artifacts))
    ensures Lookup(Apply(artifacts, e), id) ==
            if e.artifact.artifactId != id then Lookup(artifacts, id)
            else if !e.append then Some(e.artifact)
            else match Lookup(artifacts, id)
                 case None => None
                 case Some(a) => Some(a.(parts := a.parts + e.artifact.parts))
  {
    ApplyKeepsDistinct(artifacts, e);
    ApplyIds(artifacts, e);
    IdMembership(artifacts, e.artifact.artifactId);
    var after := Apply(artifacts, e);
    IdMembership(artifacts, id);
    IdMembership(after, id);
    if Position(artifacts, id).Some? {
      LookupUnique(after, Position(artifacts, id).value);
    } else if Position(after, id).Some? {
      LookupUnique(after, |artifacts|);
    }
  }

  lemma ClosedFormStep(initial: Option<Artifact>, own: seq<ArtifactUpdate>, e: ArtifactUpdate)
    ensures ClosedForm(initial, own + [e]) ==
            if !e.append then Some(e.artifact)
            else match ClosedForm(initial, own)
                 case None => None
                 case Some(a) => Some(a.(parts := a.parts + e.artifact.parts))
  {
    var longer := own + [e];
    assert longer[..|longer| - 1] == own;
    var r := AfterLastReplace(longer);
    if e.append {
      assert r == AfterLastReplace(own);
      var tail := longer[r..];
      assert tail[..|tail| - 1] == own[r..];
      assert tail[|tail| - 1] == e;
      if ClosedForm(initial, own).Some? {
        var a := if r > 0 then own[r - 1].artifact else initial.value;
        assert a.parts + (AllParts(own[r..]) + e.artifact.parts)
            == (a.parts + AllParts(own[r..])) + e.artifact.parts;
      }
    } else {
      assert longer[r..] == [];
      assert e.artifact.parts + [] == e.artifact.parts;
    }
  }

  // ---- The whole stream --------------------------------------------------------------------

  /** Each id depends on its own events only: the last replacement plus everything appended since. */
  lemma {:induction false} FoldClosedForm(artifacts: seq<Artifact>, events: seq<ArtifactUpdate>, id: string)
    requires Distinct(Ids(artifacts))
    ensures Distinct(Ids(ApplyAll(artifacts, events)))
    ensures Lookup(ApplyAll(artifacts, events), id)
         == ClosedForm(Lookup(artifacts, id), EventsFor(events, id))
  {
    if events == [] {
      match Lookup(artifacts, id)
      case None =>
      case Some(a) => assert a.parts + [] == a.parts;
    } else {
      var init, last := events[..|events| - 1], events[|events| - 1];
      FoldClosedForm(artifacts, init, id);
      ApplyKeepsDistinct(ApplyAll(artifacts, init), last);
      ApplyLookup(ApplyAll(artifacts, init), last, id);
      ClosedFormStep(Lookup(artifacts, id), EventsFor(init, id), last);
      if last.artifact.artifactId != id {
        assert EventsFor(init, id) + [] == EventsFor(init, id);
      }
    }
  }

  /** Artifact order is order of first creation, the initial artifacts coming first. */
  lemma {:induction false} FoldOrder(artifacts: seq<Artifact>, events: seq<ArtifactUpdate>)
    requires Distinct(Ids(artifacts))
    ensures Ids(ApplyAll(artifacts, events)) == FirstOccurrences(Ids(artifacts) + Creations(events))
  {
    if events == [] {
      assert Ids(artifacts) + [] == Ids(artifacts);
      DistinctUnchanged(Ids(artifacts));
    } else {
      var init, last := events[..|events| - 1], events[|events| - 1];
      FoldOrder(artifacts, init);
      ApplyIds(ApplyAll(artifacts, init), last);
      var before := Ids(artifacts) + Creations(init);
      if last.append {
        assert Creations(events) == Creations(init);
      } else {
        var after := Ids(artifacts) + Creations(events);
        assert after == before + [last.artifact.artifactId];
        assert after[..|after| - 1] == before;
      }
    }
  }

  lemma {:induction false} DistinctUnchanged(ids: seq<string>)
    requires Distinct(ids)
    ensures FirstOccurrences(ids) == ids
  {
    if ids != [] {
      DistinctUnchanged(ids[..|ids| - 1]);
    }
  }

  lemma NeverCreated(artifacts: seq<Artifact>, events: seq<ArtifactUpdate>, id: string)
    requires Distinct(Ids(artifacts)) && id !in Ids(artifacts) && id !in Creations(events)
    ensures Lookup(ApplyAll(artifacts, events), id) == None
  {
    FoldOrder(artifacts, events);
    IdMembership(ApplyAll(artifacts, events), id);
  }

  /** Chunks appended before the artifact is created leave no trace in it, whatever comes later. */
  lemma {:induction false} AppendsBeforeCreationVanish(
    artifacts: seq<Artifact>, before: seq<ArtifactUpdate>, after: seq<ArtifactUpdate>, id: string)
    requires Distinct(Ids(artifacts)) && id !in Ids(artifacts) && id !in Creations(before)
    ensures Lookup(ApplyAll(artifacts, before + after), id) == Lookup(ApplyAll(artifacts, after), id)
  {
    if after == [] {
      assert before + after == before;
      NeverCreated(artifacts, before, id);
      IdMembership(artifacts, id);
    } else {
      var init, last := after[..|after| - 1], after[|after| - 1];
      assert (before + after)[..|before + after| - 1] == before + init;
      AppendsBeforeCreationVanish(artifacts, before, init, id);
      FoldClosedForm(artifacts, before + init, id);
      FoldClosedForm(artifacts, init, id);
      ApplyLookup(ApplyAll(artifacts, before + init), last, id);
      ApplyLookup(ApplyAll(artifacts, init), last, id);
    }
  }
}
