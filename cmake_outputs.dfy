/**
 * The output renaming of a custom target's `postprocess`.  Every custom
 * target appends its outputs to one list shared by the whole project; an
 * output whose name is already on that list is renamed `c<N>_<name>`, with
 * `N` taken from a counter shared by every custom target, and the old name
 * is remembered in the target's conflict map.
 */
module CMakeOutputs {
  /** `str(n)` for a natural number. */
  function Decimal(n: nat): (r: string)
    ensures |r| >= 1
    ensures n >= 10 ==> |r| >= 2
    ensures forall i :: 0 <= i < |r| ==> '0' <= r[i] <= '9'
  {
    if n < 10 then [(48 + n) as char] else Decimal(n / 10) + [(48 + n % 10) as char]
  }

  /** Different numbers are written differently. */
  lemma {:induction false} DecimalInjective(n: nat, m: nat)
    requires Decimal(n) == Decimal(m)
    ensures n == m
  {
    var a, b := Decimal(n), Decimal(m);
    if n < 10 && m < 10 {
      assert a[0] == b[0];
    } else if n >= 10 && m >= 10 {
      assert a[|a| - 1] == b[|b| - 1];
      assert n % 10 == m % 10;
      assert Decimal(n / 10) == a[..|a| - 1];
      assert Decimal(m / 10) == b[..|b| - 1];
      DecimalInjective(n / 10, m / 10);
    }
  }

  /** The name `c<counter>_<name>` a conflicting output is given. */
  function Renamed(counter: nat, name: string): (r: string)
    ensures |r| > |name|
    ensures '/' !in name ==> '/' !in r
  {
    var d := Decimal(counter);
    assert forall i :: 0 <= i < |d| ==> d[i] != '/';
    "c" + d + "_" + name
  }

  /** In `c<digits>_<name>` the first underscore follows the digits. */
  lemma FirstUnderscore(s: string, d: string, name: string)
    requires forall i :: 0 <= i < |d| ==> '0' <= d[i] <= '9'
    requires s == "c" + d + "_" + name
    ensures s[1 + |d|] == '_'
    ensures forall i :: 1 <= i <= |d| ==> s[i] != '_'
  {
    forall i | 1 <= i <= |d| ensures s[i] != '_' {
      assert s[i] == d[i - 1];
    }
  }

  /** A renamed output tells its counter and its original name apart from every other one. */
  lemma RenamedInjective(n: nat, a: string, m: nat, b: string)
    requires Renamed(n, a) == Renamed(m, b)
    ensures n == m && a == b
  {
    var s := Renamed(n, a);
    var dn, dm := Decimal(n), Decimal(m);
    assert s == "c" + dn + "_" + a;
    assert s == "c" + dm + "_" + b;
    FirstUnderscore(s, dn, a);
    FirstUnderscore(s, dm, b);
    assert |dn| == |dm|;
    assert dn == s[1..1 + |dn|] == dm;
    DecimalInjective(n, m);
    assert a == s[2 + |dn|..] == b;
  }

  /** The state of the renaming loop: the new outputs, the shared list, the shared counter, the conflict map. */
  datatype RenameState = RenameState(outputs: seq<string>, all: seq<string>, counter: nat, conflicts: map<string, string>)

  /** One pass of the renaming loop. */
  function RenameStep(st: RenameState, name: string): RenameState {
    if name in st.all then
      var n := Renamed(st.counter, name);
      RenameState(st.outputs + [n], st.all + [n], st.counter + 1, st.conflicts[name := n])
    else
      RenameState(st.outputs + [name], st.all + [name], st.counter, st.conflicts)
  }

  /** The renaming loop over a target's outputs. */
  function Rename(names: seq<string>, all: seq<string>, counter: nat, conflicts: map<string, string>): (r: RenameState)
    ensures |r.outputs| == |names| && r.all == all + r.outputs
    ensures r.counter >= counter
  {
    if names == [] then RenameState([], all, counter, conflicts)
    else RenameStep(Rename(names[..|names| - 1], all, counter, conflicts), names[|names| - 1])
  }

  /** The number of positions at which two lists of the same length differ. */
  function Changed(a: seq<string>, b: seq<string>): nat
    requires |a| == |b|
  {
    if a == [] then 0
    else Changed(a[..|a| - 1], b[..|b| - 1]) + (if a[|a| - 1] != b[|b| - 1] then 1 else 0)
  }

  /**
   * An output keeps its name exactly when that name is not yet on the
   * shared list, counting this target's own earlier outputs.
   */
  lemma {:induction false} RenameKeeps(names: seq<string>, all: seq<string>, counter: nat, conflicts: map<string, string>)
    ensures var r := Rename(names, all, counter, conflicts);
      forall k :: 0 <= k < |names| ==> (r.outputs[k] == names[k] <==> names[k] !in all + r.outputs[..k])
  {
    if names != [] {
      var init := names[..|names| - 1];
      RenameKeeps(init, all, counter, conflicts);
      var st := Rename(init, all, counter, conflicts);
      var r := Rename(names, all, counter, conflicts);
      assert r.outputs[..|init|] == st.outputs;
      forall k | 0 <= k < |names|
        ensures r.outputs[k] == names[k] <==> names[k] !in all + r.outputs[..k]
      {
        if k < |init| {
          assert r.outputs[..k] == st.outputs[..k];
          assert names[k] == init[k];
        }
      }
    }
  }

  /** The counter moves on by one per renamed output. */
  lemma {:induction false} RenameCounter(names: seq<string>, all: seq<string>, counter: nat, conflicts: map<string, string>)
    ensures var r := Rename(names, all, counter, conflicts); r.counter == counter + Changed(r.outputs, names)
  {
    if names != [] {
      var init := names[..|names| - 1];
      RenameCounter(init, all, counter, conflicts);
      var r := Rename(names, all, counter, conflicts);
      assert r.outputs[..|init|] == Rename(init, all, counter, conflicts).outputs;
    }
  }

  /** Each renamed output is tagged with the counter value the outputs before it reached. */
  lemma RenameTag(names: seq<string>, all: seq<string>, counter: nat, conflicts: map<string, string>, k: nat)
    requires k < |names| && Rename(names, all, counter, conflicts).outputs[k] != names[k]
    ensures Rename(names, all, counter, conflicts).outputs[k] == Renamed(Rename(names[..k], all, counter, conflicts).counter, names[k])
  {
    RenameAt(names, all, counter, conflicts, k);
  }

  /** The output and counter at position `j` come from one step after the first `j` names. */
  lemma RenameAt(names: seq<string>, all: seq<string>, counter: nat, conflicts: map<string, string>, j: nat)
    requires j < |names|
    ensures var st := RenameStep(Rename(names[..j], all, counter, conflicts), names[j]);
      Rename(names, all, counter, conflicts).outputs[j] == st.outputs[j]
      && Rename(names[..j + 1], all, counter, conflicts).counter == st.counter
  {
    var pre := names[..j + 1];
    var ro := Rename(names, all, counter, conflicts).outputs;
    RenamePrefixes(names, all, counter, conflicts, j + 1);
    assert ro[j] == ro[..j + 1][j];
    assert pre[..|pre| - 1] == names[..j];
  }

  /** The outputs for a prefix of the names are the same prefix of the outputs. */
  lemma {:induction false} RenamePrefixes(names: seq<string>, all: seq<string>, counter: nat, conflicts: map<string, string>, m: nat)
    requires m <= |names|
    ensures Rename(names, all, counter, conflicts).outputs[..m] == Rename(names[..m], all, counter, conflicts).outputs
  {
    if m < |names| {
      var init := names[..|names| - 1];
      RenamePrefixes(init, all, counter, conflicts, m);
      var ro := Rename(names, all, counter, conflicts).outputs;
      assert ro[..|init|] == Rename(init, all, counter, conflicts).outputs;
      assert ro[..m] == ro[..|init|][..m];
      assert init[..m] == names[..m];
    } else {
      assert names[..m] == names;
    }
  }

  /** The counter never moves back as the loop goes on. */
  lemma {:induction false} CounterMonotone(names: seq<string>, all: seq<string>, counter: nat, conflicts: map<string, string>, m: nat, n: nat)
    requires m <= n <= |names|
    ensures Rename(names[..m], all, counter, conflicts).counter <= Rename(names[..n], all, counter, conflicts).counter
  {
    if m < n {
      CounterMonotone(names, all, counter, conflicts, m, n - 1);
      assert names[..n][..n - 1] == names[..n - 1];
    }
  }

  /** Renaming an output moves the counter on. */
  lemma CounterStep(names: seq<string>, all: seq<string>, counter: nat, conflicts: map<string, string>, j: nat)
    requires j < |names| && Rename(names, all, counter, conflicts).outputs[j] != names[j]
    ensures Rename(names[..j], all, counter, conflicts).counter < Rename(names[..j + 1], all, counter, conflicts).counter
  {
    RenameAt(names, all, counter, conflicts, j);
  }

  /** Two renamed outputs of one pass never share a name: each used its own counter value. */
  lemma RenamedDistinct(names: seq<string>, all: seq<string>, counter: nat, conflicts: map<string, string>, j: nat, k: nat)
    requires j < k < |names|
    requires var r := Rename(names, all, counter, conflicts); r.outputs[j] != names[j] && r.outputs[k] != names[k]
    ensures var r := Rename(names, all, counter, conflicts); r.outputs[j] != r.outputs[k]
  {
    RenameTag(names, all, counter, conflicts, j);
    RenameTag(names, all, counter, conflicts, k);
    CounterStep(names, all, counter, conflicts, j);
    CounterMonotone(names, all, counter, conflicts, j + 1, k);
    var r := Rename(names, all, counter, conflicts);
    if r.outputs[j] == r.outputs[k] {
      RenamedInjective(Rename(names[..j], all, counter, conflicts).counter, names[j],
                       Rename(names[..k], all, counter, conflicts).counter, names[k]);
    }
  }

  /**
   * With an empty conflict map to start from, every old name leads to one
   * of the new outputs: through the conflict map when it was renamed, as
   * itself otherwise.
   */
  lemma {:induction false} RenameRedirects(names: seq<string>, all: seq<string>, counter: nat)
    ensures var r := Rename(names, all, counter, map[]);
      forall k :: 0 <= k < |names| ==>
        (if names[k] in r.conflicts then r.conflicts[names[k]] else names[k]) in r.outputs
    ensures var r := Rename(names, all, counter, map[]);
      forall x :: x in r.conflicts ==> x in names && r.conflicts[x] in r.outputs && r.conflicts[x] != x
  {
    if names != [] {
      var init := names[..|names| - 1];
      var name := names[|names| - 1];
      RenameRedirects(init, all, counter);
      var st := Rename(init, all, counter, map[]);
      var r := Rename(names, all, counter, map[]);
      assert r == RenameStep(st, name);
      forall k | 0 <= k < |names|
        ensures (if names[k] in r.conflicts then r.conflicts[names[k]] else names[k]) in r.outputs
      {
        if k < |init| {
          assert names[k] == init[k];
        }
      }
    }
  }

  /** Renaming bare file names yields bare file names. */
  lemma {:induction false} RenameBare(names: seq<string>, all: seq<string>, counter: nat, conflicts: map<string, string>)
    requires forall k :: 0 <= k < |names| ==> '/' !in names[k]
    ensures forall k :: 0 <= k < |names| ==> '/' !in Rename(names, all, counter, conflicts).outputs[k]
  {
    if names != [] {
      var init := names[..|names| - 1];
      RenameBare(init, all, counter, conflicts);
      assert Rename(names, all, counter, conflicts).outputs[..|init|] == Rename(init, all, counter, conflicts).outputs;
    }
  }

  /**
   * A renamed name is not itself checked against the list: after `c0_a`
   * was produced, a target with two outputs `a` keeps the first and renames
   * the second onto `c0_a` again.
   */
  lemma RenameCanCollide()
    ensures Rename(["a", "a"], ["c0_a"], 0, map[]).all == ["c0_a", "a", "c0_a"]
  {
    assert Decimal(0) == "0";
    assert Renamed(0, "a") == "c0_a";
    assert Rename(["a"], ["c0_a"], 0, map[]).all == ["c0_a", "a"] by {
      assert ["a"][..0] == [];
    }
    assert ["a", "a"][..1] == ["a"];
  }
}
