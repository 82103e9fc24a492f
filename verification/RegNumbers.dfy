/** The one shape a registration number is compared in (domain/documents/chain.go).

    A string is a sequence of Unicode scalar values, which is what the Go code counts here: runes, not bytes. */
module RegNumbers {
  import opened Text

  function NormaliseRegNumber(reg: string): string {
    Upper(Trim(reg))
  }

  const RegNumberLimit := 8
  const RegNumberMax := 64

  predicate PlausibleRegNumber(reg: string) {
    RegNumberLimit <= |reg| <= RegNumberMax
  }

  /** A normalised number normalises to itself, so two sides of a comparison cannot drift apart. */
  lemma {:induction false} NormaliseIsIdempotent(reg: string)
    ensures NormaliseRegNumber(NormaliseRegNumber(reg)) == NormaliseRegNumber(reg)
  {
    var t := Trim(reg);
    var u := Upper(t);
    TrimIsTrimmed(reg);
    if t != "" {
      UpperUnitTwice(t[0]);
      UpperUnitTwice(t[|t| - 1]);
    }
    TrimIsTrimmed(u);
    forall i | 0 <= i < |u| ensures Upper(u)[i] == u[i] {
      UpperUnitTwice(t[i]);
    }
    assert Upper(u) == u;
  }

  // ------------------------------------------------------------------ there is always one more citizen

  /** A number of `n` letters A. */
  function As(n: nat): string {
    seq(n, i => 'A')
  }

  lemma {:induction false} AsIsNormal(n: nat)
    ensures NormaliseRegNumber(As(n)) == As(n)
  {
    TrimIsTrimmed(As(n));
    assert Upper(As(n)) == As(n);
  }

  /** Numbers of different lengths are different, so `k` of them fill a set of `k`. */
  lemma {:induction false} AsAreMany(s: set<string>, lo: nat, hi: nat)
    requires lo <= hi && forall n | lo <= n < hi :: As(n) in s
    ensures |s| >= hi - lo
    decreases hi
  {
    if lo < hi {
      var last := As(hi - 1);
      var rest := s - {last};
      forall n | lo <= n < hi - 1 ensures As(n) in rest {
        assert |As(n)| != |last|;
      }
      AsAreMany(rest, lo, hi - 1);
    }
  }

  /** Any 56 excluded citizens leave one that is not excluded. */
  lemma {:induction false} SomebodyElse(excluded: set<string>) returns (reg: string)
    requires |excluded| <= RegNumberMax - RegNumberLimit
    ensures reg !in excluded && PlausibleRegNumber(reg) && NormaliseRegNumber(reg) == reg
  {
    if forall n | RegNumberLimit <= n < RegNumberMax + 1 :: As(n) in excluded {
      AsAreMany(excluded, RegNumberLimit, RegNumberMax + 1);
      assert false;
    }
    var n: nat :| RegNumberLimit <= n < RegNumberMax + 1 && As(n) !in excluded;
    reg := As(n);
    AsIsNormal(n);
  }
}
