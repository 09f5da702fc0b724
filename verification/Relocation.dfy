/** Trees of files that have only been moved about. `Relocated` says every file is still
    there exactly once, at a known place, with the contents it had: nothing lost, nothing
    overwritten, nothing made up. Rolling back is bringing every file home. */
module Relocation {
  import opened Paths

  /** Renaming replaces whatever is at `to`; a file renamed to itself stays. */
  function Move<C>(files: map<Place, C>, from: Place, to: Place): map<Place, C> {
    if from in files then (files - {from})[to := files[from]] else files
  }

  /** Where each file of a tree has got to, and where each file of the new tree began. */
  datatype Journey = Journey(at: map<Place, Place>, home: map<Place, Place>) {
    /** The file that began at `p` goes on to `to`. */
    function Onward(p: Place, to: Place): Journey
      requires p in at
    {
      Journey(at[p := to], (home - {at[p]})[to := p])
    }
  }

  function Nowhere<C>(files: map<Place, C>): Journey {
    Journey(map p | p in files :: p, map p | p in files :: p)
  }

  /** `now` holds the files of `before`, each once, where the journey says. */
  ghost predicate Relocated<C>(before: map<Place, C>, j: Journey, now: map<Place, C>) {
    && j.at.Keys == before.Keys && j.home.Keys == now.Keys
    && (forall p :: p in before ==> j.at[p] in now && j.home[j.at[p]] == p && now[j.at[p]] == before[p])
    && (forall x :: x in now ==> j.home[x] in before && j.at[j.home[x]] == x)
  }

  lemma NothingMoved<C>(files: map<Place, C>)
    ensures Relocated(files, Nowhere(files), files)
  {
  }

  /** Moving a file to a free place keeps every file. */
  lemma MoveToFree<C>(before: map<Place, C>, j: Journey, now: map<Place, C>, p: Place, to: Place)
    requires Relocated(before, j, now) && p in before && to !in now
    ensures Relocated(before, j.Onward(p, to), Move(now, j.at[p], to))
  {
  }

  /** With every file home again the tree is what it was. */
  lemma AllHome<C>(before: map<Place, C>, j: Journey, now: map<Place, C>)
    requires Relocated(before, j, now) && forall p :: p in before ==> j.at[p] == p
    ensures now == before
  {
    assert forall x :: x in now ==> j.home[x] in before && j.at[j.home[x]] == j.home[x];
    assert now.Keys == before.Keys;
  }

  function After(first: Journey, second: Journey): Journey
    requires forall p :: p in first.at ==> first.at[p] in second.at
    requires forall x :: x in second.home ==> second.home[x] in first.home
  {
    Journey(map p | p in first.at :: second.at[first.at[p]], map x | x in second.home :: first.home[second.home[x]])
  }

  /** Relocations follow one another. */
  lemma Compose<C>(before: map<Place, C>, first: Journey, middle: map<Place, C>, second: Journey, now: map<Place, C>)
    requires Relocated(before, first, middle) && Relocated(middle, second, now)
    ensures Relocated(before, After(first, second), now)
  {
  }

  /** So there are as many files as before. */
  lemma {:induction false} RelocatedSize<C>(before: map<Place, C>, j: Journey, now: map<Place, C>)
    requires Relocated(before, j, now)
    ensures |before| == |now|
    decreases |before|
  {
    if before == map[] {
      assert forall x :: x !in now;
      assert now == map[];
    } else {
      var p :| p in before;
      var less := before - {p};
      var j' := Journey(j.at - {p}, j.home - {j.at[p]});
      RelocatedSize(less, j', now - {j.at[p]});
      assert less.Keys == before.Keys - {p} && (now - {j.at[p]}).Keys == now.Keys - {j.at[p]};
      assert |less.Keys| == |less| && |(now - {j.at[p]}).Keys| == |now - {j.at[p]}|;
    }
  }

  /** Every file there was is there, once, with its contents, and no other. */
  ghost predicate EveryFileKept<C>(before: map<Place, C>, after: map<Place, C>) {
    exists j :: Relocated(before, j, after)
  }

  lemma MoveFrom<C>(before: map<Place, C>, j: Journey, after: map<Place, C>, from: Place, to: Place)
    requires Relocated(before, j, after) && from in after && to !in after
    ensures Relocated(before, j.Onward(j.home[from], to), Move(after, from, to))
  {
    MoveToFree(before, j, after, j.home[from], to);
  }

  lemma JourneyKeeps<C>(before: map<Place, C>, j: Journey, after: map<Place, C>)
    requires Relocated(before, j, after)
    ensures EveryFileKept(before, after)
  {
  }

  ghost function JourneyOf<C>(files: map<Place, C>, after: map<Place, C>): (j: Journey)
    requires EveryFileKept(files, after)
    ensures Relocated(files, j, after)
  {
    var j :| Relocated(files, j, after);
    j
  }

  /** Keeping every file twice keeps every file. */
  lemma KeptAgain<C>(files: map<Place, C>, middle: map<Place, C>, after: map<Place, C>)
    requires EveryFileKept(files, middle) && EveryFileKept(middle, after)
    ensures EveryFileKept(files, after)
  {
    var first, second := JourneyOf(files, middle), JourneyOf(middle, after);
    ComposeKept(files, first, middle, second, after);
  }

  lemma ComposeKept<C>(files: map<Place, C>, first: Journey, middle: map<Place, C>, second: Journey, after: map<Place, C>)
    requires Relocated(files, first, middle) && Relocated(middle, second, after)
    ensures EveryFileKept(files, after)
  {
    Compose(files, first, middle, second, after);
  }

  lemma WayBack<C>(files: map<Place, C>, j: Journey, after: map<Place, C>)
    requires Relocated(files, j, after)
    ensures Relocated(after, Journey(j.home, j.at), files)
  {
  }

  lemma KeptBack<C>(files: map<Place, C>, after: map<Place, C>)
    requires EveryFileKept(files, after)
    ensures EveryFileKept(after, files)
  {
    var j := JourneyOf(files, after);
    WayBack(files, j, after);
  }

  /** Keeping every file afterwards neither loses a file nor brings one back. */
  lemma KeptLaterIff<C>(files: map<Place, C>, middle: map<Place, C>, after: map<Place, C>)
    requires EveryFileKept(middle, after)
    ensures EveryFileKept(files, after) <==> EveryFileKept(files, middle)
  {
    if EveryFileKept(files, middle) {
      KeptAgain(files, middle, after);
    }
    if EveryFileKept(files, after) {
      KeptBack(middle, after);
      KeptAgain(files, after, middle);
    }
  }

  lemma FilesStayKept<C>(before: map<Place, C>, after: map<Place, C>, from: Place, to: Place)
    requires EveryFileKept(before, after) && from in after && to !in after
    ensures EveryFileKept(before, Move(after, from, to))
  {
    var j := JourneyOf(before, after);
    MoveFrom(before, j, after, from, to);
    JourneyKeeps(before, j.Onward(j.home[from], to), Move(after, from, to));
  }
}
