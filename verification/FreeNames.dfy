/** Finding a name nothing has yet by counting up: ` (2)`, ` (3)`… The search always ends,
    since the names it tries are all different and only so many can be taken. */
module FreeNames {
  import opened Text

  /** The `n`th name tried: `stem (n).extension`. */
  function Numbered(stem: string, n: nat, extension: string): string {
    stem + " (" + Decimal(n) + ")." + extension
  }

  lemma NumberedIsInjective(stem: string, m: nat, n: nat, extension: string)
    requires Numbered(stem, m, extension) == Numbered(stem, n, extension)
    ensures m == n
  {
    var a, b := Numbered(stem, m, extension), Numbered(stem, n, extension);
    var tail := ")." + extension;
    var head := stem + " (";
    assert a == head + Decimal(m) + tail && b == head + Decimal(n) + tail;
    assert Decimal(m) == a[|head|..|a| - |tail|];
    assert Decimal(n) == b[|head|..|b| - |tail|];
    DecimalIsInjective(m, n);
  }

  /** Distinct names, all taken, are no more than the names there are. */
  lemma {:induction false} TakenAreFew<T>(taken: set<T>, name: nat -> T, from: nat, to: nat)
    requires from <= to && (forall n :: from <= n < to ==> name(n) in taken)
    requires forall m, n :: from <= m < n < to ==> name(m) != name(n)
    ensures to - from <= |taken|
  {
    if from < to {
      TakenAreFew(taken - {name(to - 1)}, name, from, to - 1);
    }
  }
}
