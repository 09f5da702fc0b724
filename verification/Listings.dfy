/** The files of a folder in the order delune goes through them: by name. Directory listings have
    no order of their own, so delune sorts what it finds before it looks for a track's twin,
    takes the tags of the first track, or breaks a tie between values. The loops here pick the
    first file of a folder and sort its files, and there is only one sorted listing, so that
    looking twice at an unchanged folder sees the same list. */
module Listings {
  import opened Text
  import opened Paths

  predicate NamedBefore(a: Parts, b: Parts) {
    a == b || Less(FileName(a), FileName(b))
  }

  lemma NamedBeforeIsOrder(a: Parts, b: Parts, c: Parts, folder: Parts)
    requires a != [] && b != [] && Folder(a) == folder && Folder(b) == folder
    ensures NamedBefore(a, b) || NamedBefore(b, a)
    ensures NamedBefore(a, b) && NamedBefore(b, c) ==> NamedBefore(a, c)
  {
    LessIsTotal(FileName(a), FileName(b));
    assert a == Folder(a) + [FileName(a)] && b == Folder(b) + [FileName(b)];
    if Less(FileName(a), FileName(b)) && Less(FileName(b), FileName(c)) {
      LessIsTransitive(FileName(a), FileName(b), FileName(c));
    }
  }

  /** The first of some files of a folder, by name. */
  method Earliest(among: set<Parts>, ghost folder: Parts) returns (first: Parts)
    requires among != {} && forall q :: q in among ==> q != [] && Folder(q) == folder
    ensures first in among && forall q :: q in among ==> NamedBefore(first, q)
  {
    first :| first in among;
    var rest := among - {first};
    while rest != {}
      invariant first in among && rest <= among
      invariant forall q :: q in among && q !in rest ==> NamedBefore(first, q)
    {
      var next :| next in rest;
      rest := rest - {next};
      NamedBeforeIsOrder(next, first, first, folder);
      if Less(FileName(next), FileName(first)) {
        forall q | q in among && q !in rest ensures NamedBefore(next, q) {
          NamedBeforeIsOrder(next, first, q, folder);
        }
        first := next;
      }
    }
  }

  predicate InNameOrder(files: seq<Parts>) {
    forall i, j :: 0 <= i < j < |files| ==> files[i] != files[j] && NamedBefore(files[i], files[j])
  }

  /** Some files of a folder, by name. */
  method Sorted(all: set<Parts>, ghost folder: Parts) returns (files: seq<Parts>)
    requires forall q :: q in all ==> q != [] && Folder(q) == folder
    ensures InNameOrder(files) && forall q :: q in files <==> q in all
  {
    files := [];
    var rest := all;
    while rest != {}
      invariant rest <= all && InNameOrder(files)
      invariant forall q :: q in files <==> q in all && q !in rest
      invariant forall p, q :: p in files && q in rest ==> NamedBefore(p, q)
    {
      var next := Earliest(rest, folder);
      rest, files := rest - {next}, files + [next];
    }
  }

  lemma NoneListed(files: seq<Parts>)
    ensures (forall q :: q !in files) ==> files == []
  {
    if files != [] {
      assert files[0] in files;
    }
  }

  /** There is one such order. */
  lemma {:induction false} OneOrder(a: seq<Parts>, b: seq<Parts>)
    requires InNameOrder(a) && InNameOrder(b) && forall q :: q in a <==> q in b
    ensures a == b
  {
    if a == [] {
      NoneListed(b);
    } else {
      SameFirst(a, b);
      TailHas(a);
      TailHas(b);
      OneOrder(a[1..], b[1..]);
      assert a == [a[0]] + a[1..] && b == [b[0]] + b[1..];
    }
  }

  lemma TailHas(a: seq<Parts>)
    requires a != [] && InNameOrder(a)
    ensures forall q :: q in a[1..] <==> q in a && q != a[0]
  {
    assert a == [a[0]] + a[1..];
    forall i | 0 <= i < |a[1..]| ensures a[1..][i] != a[0] {}
  }

  lemma SameFirst(a: seq<Parts>, b: seq<Parts>)
    requires a != [] && InNameOrder(a) && InNameOrder(b) && forall q :: q in a <==> q in b
    ensures b != [] && a[0] == b[0]
  {
    assert a[0] in a && b[0] in b;
    var i :| 0 <= i < |b| && b[i] == a[0];
    var j :| 0 <= j < |a| && a[j] == b[0];
    if 0 < i && 0 < j {
      LessIsStrict(FileName(a[0]), FileName(b[0]));
    }
  }
}
