/** The coordinator's methods that run in one critical section, and the page-closing loop of a cleanup,
    as the imperative code they are. */
module BrowserCoordinator {
  import opened Wrappers
  import opened BrowserState

  /** What a caller asks Acquire for. */
  datatype Target = Target(server: string, profile: string, requireExisting: bool)

  predicate Candidate(p: string, f: Profile, target: Target, defaultProfile: string) {
    f.live
    && (target.profile == "" || p == target.profile)
    && (target.server == "" || f.ref.server == target.server)
    && (target.requireExisting ==> f.ref.ext)
    && (target.profile == "" && target.server == "" && !target.requireExisting && defaultProfile != "" ==>
          p == defaultProfile)
  }

  /** p is the one profile the target fits. */
  ghost predicate Only(p: string, profiles: map<string, Profile>, target: Target, defaultProfile: string) {
    && p in profiles && Candidate(p, profiles[p], target, defaultProfile)
    && forall q :: q in profiles && Candidate(q, profiles[q], target, defaultProfile) ==> q == p
  }

  datatype Selection = Selected(profile: string) | TargetRequired | SessionLost

  /** From f to g only the generation is confirmed stopped: the session ends and the chooser goes if they are
      of that generation, and a token stranded under it is back in the gate. */
  predicate StoppedOnly(f: Profile, g: Profile, gen: Generation) {
    && g.stopped == f.stopped + {gen} && g.ref == f.ref && g.active == f.active && g.transition == f.transition
    && (g.live <==> f.live && f.ref.gen != gen)
    && (if f.chooser.Some? && f.chooser.value.ref.gen == gen then g.chooser == None else g.chooser == f.chooser)
    && (g.stranded <==> f.stranded && f.strandedGen != gen)
    && g.gate == f.gate + if f.stranded && !g.stranded then 1 else 0
  }

  class Coordinator {
    var profiles: map<string, Profile>
    var bindings: map<Key, Ref>

    constructor ()
      ensures profiles == map[] && bindings == map[]
    {
      profiles, bindings := map[], map[];
    }

    method PrepareProfile(ref: Ref) returns (r: Registration)
      modifies this`profiles
      ensures profiles == PrepareIn(old(profiles), ref)
      ensures r == Registered ==> ref.profile in profiles && profiles[ref.profile].ref.server == ref.server
      ensures r in {Registered, MissingIdentity, OtherServer} && (r == MissingIdentity <==> !Identified(ref))
    {
      if ref.server == "" || ref.profile == "" || ref.id == "" {
        return MissingIdentity;
      }
      if ref.profile in profiles {
        if profiles[ref.profile].ref.server != ref.server {
          return OtherServer;
        }
        return Registered;
      }
      profiles := profiles[ref.profile := FreshProfile(ref)];
      return Registered;
    }

    /** The scan over the profiles meets them in any order; the outcome does not depend on it. */
    method RegisterSession(ref: Ref) returns (r: Registration)
      modifies this`profiles
      ensures r == RegisterOutcome(old(profiles), ref) && profiles == RegisterIn(old(profiles), ref)
    {
      if ref.server == "" || ref.profile == "" || ref.id == "" {
        return MissingIdentity;
      }
      var rest := profiles.Keys;
      while rest != {}
        invariant rest <= profiles.Keys && profiles == old(profiles)
        invariant forall p :: p in profiles && p !in rest ==>
                    !(p != ref.profile && profiles[p].live && profiles[p].ref.server == ref.server)
        decreases rest
      {
        var p :| p in rest;
        if p != ref.profile && profiles[p].live && profiles[p].ref.server == ref.server {
          return ServerBusy;
        }
        rest := rest - {p};
      }
      if ref.profile !in profiles {
        profiles := profiles[ref.profile := FreshProfile(EMPTY_REF)];
      } else if profiles[ref.profile].live {
        if profiles[ref.profile].ref == ref {
          return AlreadyRegistered;
        }
        return StillLive;
      }
      var f := profiles[ref.profile];
      var next := ref;
      if next.gen <= f.ref.gen {
        next := next.(gen := (f.ref.gen + 1) % MODULUS);
      }
      profiles := profiles[ref.profile := f.(ref := next, live := true, chooser := None,
                                             published := f.published + {next.gen}, drained := f.drained - {next.gen})];
      return Registered;
    }

    method ConfirmSessionStopped(p: string, gen: Generation)
      modifies this`profiles
      ensures profiles == ConfirmIn(old(profiles), p, gen)
      ensures profiles.Keys == old(profiles.Keys)
      ensures forall q :: q in profiles && q != p ==> profiles[q] == old(profiles)[q]
      ensures p in profiles ==> StoppedOnly(old(profiles)[p], profiles[p], gen)
    {
      if p in profiles {
        var f := profiles[p];
        f := f.(stopped := f.stopped + {gen});
        if f.chooser.Some? && f.chooser.value.ref.gen == gen {
          f := f.(chooser := None);
        }
        if f.ref.gen == gen {
          f := f.(live := false);
        }
        if f.stranded && f.strandedGen == gen {
          f := f.(stranded := false, gate := f.gate + 1, holder := InGate);
        }
        profiles := profiles[p := f];
      }
    }

    /** Acquire's choice of profile: the one live candidate, whatever order the map is walked in. */
    method Select(target: Target, defaultProfile: string) returns (r: Selection)
      ensures r == SessionLost <==> forall p :: p in profiles ==> !Candidate(p, profiles[p], target, defaultProfile)
      ensures r.Selected? <==> exists p :: Only(p, profiles, target, defaultProfile)
      ensures r.Selected? ==> Only(r.profile, profiles, target, defaultProfile)
    {
      var selected: Option<string> := None;
      var rest := profiles.Keys;
      while rest != {}
        invariant rest <= profiles.Keys
        invariant selected.Some? ==>
          (selected.value in profiles && selected.value !in rest
           && Candidate(selected.value, profiles[selected.value], target, defaultProfile))
        invariant forall p :: p in profiles && p !in rest && Candidate(p, profiles[p], target, defaultProfile) ==>
                    selected == Some(p)
        decreases rest
      {
        var p :| p in rest;
        rest := rest - {p};
        if Candidate(p, profiles[p], target, defaultProfile) {
          if selected.Some? {
            assert selected.value != p && Candidate(selected.value, profiles[selected.value], target, defaultProfile);
            return TargetRequired;
          }
          selected := Some(p);
        }
      }
      if selected.Some? {
        assert Only(selected.value, profiles, target, defaultProfile);
        return Selected(selected.value);
      }
      return SessionLost;
    }
  }

  // ---- the pages of one task ----

  /** What happens when a page comes up for closing: the session check or authorisation refuses it, or
      the driver answers. */
  datatype CloseAnswer = Refused | CloseFailed | CloseUnknown | PageClosed

  datatype CleanupOutcome = Finished | Stopped(page: string, answer: CloseAnswer)

  predicate ToClose(pages: map<string, Ref>, id: string, ref: Ref, retain: set<string>, stopped: bool) {
    id in pages && id !in retain && !stopped && pages[id].gen == ref.gen && pages[id].server == ref.server
  }

  class TaskPages {
    var owned: map<string, Ref>
    var issued: seq<string>   // every page handed to driver.ClosePage, in order
    var gone: set<string>     // pages the driver acknowledged as closed and that were not created again

    /** A page the driver has acknowledged as closed is no longer owned. */
    ghost predicate Valid()
      reads this
    {
      owned.Keys !! gone
    }

    constructor ()
      ensures Valid() && owned == map[] && issued == [] && gone == {}
    {
      owned, issued, gone := map[], [], {};
    }

    method Create(ref: Ref)
      requires Valid()
      modifies this
      ensures Valid() && owned == old(owned)[ref.page := ref] && issued == old(issued) && gone == old(gone) - {ref.page}
    {
      owned := owned[ref.page := ref];
      gone := gone - {ref.page};
    }

    method Retain(page: string)
      requires Valid()
      modifies this
      ensures Valid() && owned == old(owned) - {page} && issued == old(issued) && gone == old(gone)
    {
      owned := owned - {page};
    }

    /** The pages issued since `before` are distinct pages of `pages` to close. */
    ghost predicate Issued(before: seq<string>, pages: map<string, Ref>, ref: Ref, retain: set<string>, stopped: bool)
      reads this
    {
      && before <= issued
      && (forall i {:trigger issued[i]} :: |before| <= i < |issued| ==> ToClose(pages, issued[i], ref, retain, stopped))
      && (forall i, j {:trigger issued[i], issued[j]} :: |before| <= i < j < |issued| ==> issued[i] != issued[j])
    }

    /** FinishTask's loop. `answer` decides what happens to the page that comes up when `n` pages have
        been issued so far.

        The pages issued in this call are distinct pages to close, none of them acknowledged as closed
        before. If the call finishes, they are all of those, and nothing is owned any more. If it stops
        at a page, that page and every page to close that was not acknowledged are still owned. */
    method Finish(ref: Ref, retain: set<string>, stopped: bool, answer: (nat, string) -> CloseAnswer)
      returns (r: CleanupOutcome)
      requires Valid()
      modifies this
      ensures Valid()
      ensures Issued(old(issued), old(owned), ref, retain, stopped)
      ensures forall i :: |old(issued)| <= i < |issued| ==> issued[i] !in old(gone)
      ensures old(gone) <= gone && forall id :: id in gone - old(gone) ==> id in issued[|old(issued)|..]
      ensures r == Finished ==>
        (owned == map[] && forall id :: ToClose(old(owned), id, ref, retain, stopped) ==>
          id in issued[|old(issued)|..] && id in gone)
      ensures r.Stopped? ==>
        (r.answer != PageClosed && r.page in owned && ToClose(old(owned), r.page, ref, retain, stopped)
         && (r.answer != Refused ==> |issued| > |old(issued)| && issued[|issued| - 1] == r.page))
      ensures r.Stopped? ==>
        (forall id :: ToClose(old(owned), id, ref, retain, stopped) ==>
           (id in gone <==> id !in owned) && (id in owned ==> owned[id] == old(owned)[id]))
    {
      var snapshot := owned;
      var ids := owned.Keys;
      ghost var was := issued;
      ghost var lost := gone;
      while ids != {}
        invariant Valid() && ids <= snapshot.Keys && snapshot == old(owned)
        invariant owned == map id | id in ids :: snapshot[id]
        invariant Issued(was, snapshot, ref, retain, stopped)
        invariant forall i :: |was| <= i < |issued| ==> issued[i] !in ids
        invariant lost <= gone && forall id :: id in gone && id !in lost ==> id in issued[|was|..]
        invariant forall id :: ToClose(snapshot, id, ref, retain, stopped) && id !in ids ==>
                    id in issued[|was|..] && id in gone
        decreases ids
      {
        var id :| id in ids;
        var page := snapshot[id];
        if id !in retain && !stopped && page.gen == ref.gen && page.server == ref.server {
          var a := answer(|issued|, id);
          if a == Refused {
            return Stopped(id, a);
          }
          ghost var sent := issued[|was|..];
          issued := issued + [id];
          assert issued[|was|..] == sent + [id];
          if a != PageClosed {
            return Stopped(id, a);
          }
          gone := gone + {id};
        }
        owned := owned - {id};
        ids := ids - {id};
      }
      owned := map[];
      return Finished;
    }
  }
}
