/**
 The registry as the object it is (`SystemInner` and `get_or_create`, src/system.rs): one map from
 paths to running actors, changed only inside its lock. Each method is one lock section, and its
 contract is the step of `Registry` with the same name, so what holds over every interleaving of
 those steps holds of any concurrent use of this object.
 */
module System {
  import opened Wrappers
  import opened Paths
  import opened Registry

  datatype ActorOfError = NotServing | InvalidName(name: string) | PathTaken(path: Path)

  class SystemInner {
    var live: map<Path, nat>
    var actors: map<nat, Actor>
    var next: nat

    ghost function View(): World
      reads this
    {
      World(actors, live, next, map[], 0)
    }

    constructor ()
      ensures View() == INITIAL
    {
      live, actors, next := map[], map[], 0;
    }

    /** How to reach what is at `path` now; never creates anything. */
    method Resolve(path: Path) returns (found: Option<nat>)
      ensures found == if Alive(View(), path) then Some(live[path]) else None
    {
      if path in live && live[path] in actors && !actors[live[path]].phase.Ended? {
        found := Some(live[path]);
      } else {
        found := None;
      }
    }

    /**
     Get or create the child of `parent` named `name`. Whoever asks, and however often, an alive
     actor at the path is what they get; a refusal changes nothing.
     */
    method GetOrCreate(serving: bool, parent: Path, name: string, creator: Option<nat>, sameType: bool)
      returns (r: Result<nat, ActorOfError>)
      modifies this
      ensures !serving ==> r == Err(NotServing)
      ensures serving && !IsValidName(name) ==> r == Err(InvalidName(name))
      ensures serving && IsValidName(name) && parent + [name] in old(live) && !sameType ==>
                r == Err(PathTaken(parent + [name]))
      ensures r.Ok? <==> serving && IsValidName(name) && (parent + [name] in old(live) ==> sameType)
      ensures r.Err? ==> View() == old(View())
      ensures r.Ok? ==>
                && View() == DoCreate(old(View()), creator, parent + [name])
                && parent + [name] in live && r.value == live[parent + [name]]
                && Alive(View(), parent + [name])
      ensures r.Ok? && Alive(old(View()), parent + [name]) ==> r.value == old(live)[parent + [name]]
    {
      if !serving {
        return Err(NotServing);
      }
      if !IsValidName(name) {
        return Err(InvalidName(name));
      }
      var path := parent + [name];
      if path in live {
        if !sameType {
          return Err(PathTaken(path));
        }
        if live[path] in actors && !actors[live[path]].phase.Ended? {
          return Ok(live[path]);
        }
        live := live - {path};
      }
      actors := actors[next := Actor(path, creator, false, Starting)];
      live := live[path := next];
      r := Ok(next);
      next := next + 1;
    }

    /** The lock section of `halt`, and the signal that follows it. */
    method TakeOut(path: Path) returns (target: Option<nat>)
      modifies this
      ensures View() == RowOut(old(View()), path)
      ensures target == Target(old(View()), path)
    {
      if path !in live {
        return None;
      }
      var id := live[path];
      live := live - {path};
      if id in actors {
        actors := actors[id := actors[id].(stopRaised := true)];
      }
      target := Some(id);
    }

    method Retire(id: nat)
      requires id in actors
      modifies this
      ensures View() == DoRetire(old(View()), id)
    {
      var path := actors[id].path;
      if path in live && live[path] == id {
        live := live - {path};
      }
      actors := actors[id := actors[id].(phase := Retired)];
    }

    /** The scan of `stop_descendants`: every registered path strictly below, in no set order. */
    method Doomed(path: Path) returns (doomed: seq<Path>)
      ensures Lists(live, path, doomed)
      ensures forall i, j :: 0 <= i < j < |doomed| ==> doomed[i] != doomed[j]
    {
      doomed := [];
      var keys := live.Keys;
      while keys != {}
        invariant keys <= live.Keys
        invariant forall p :: p in doomed <==> p in live && p !in keys && path < p
        invariant forall i, j :: 0 <= i < j < |doomed| ==> doomed[i] != doomed[j]
        decreases keys
      {
        var p :| p in keys;
        keys := keys - {p};
        if StartsWith(p, path) && p != path {
          StartsWithIsAncestry(p, path);
          doomed := doomed + [p];
        } else {
          StartsWithIsAncestry(p, path);
        }
      }
    }
  }
}
