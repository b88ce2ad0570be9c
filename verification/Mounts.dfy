/** Mount paths of an agent (crates/cli/src/main.rs): the search for a free default path and the list updates. */
module Mounts {
  import opened Wrappers
  import opened Text
  import opened Decimal

  datatype Mount = Mount(hostPath: string, mountPath: string, writable: bool, isInternal: bool)

  datatype MountError = EmptyPath | RelativePath | NotFound

  const ROOT := "/home/exo/workspace/"

  /** The paths tried, in order: the plain name, then the name with -2, -3, ... */
  function Candidate(name: string, k: nat): string {
    if k == 0 then ROOT + name else ROOT + name + "-" + Print(k + 1)
  }

  predicate Used(mounts: seq<Mount>, path: string) {
    exists i :: 0 <= i < |mounts| && mounts[i].mountPath == path
  }

  ghost predicate DistinctPaths(mounts: seq<Mount>) {
    forall i, j :: 0 <= i < j < |mounts| ==> mounts[i].mountPath != mounts[j].mountPath
  }

  // ----- The search -----

  lemma {:induction false} CandidatesDiffer(name: string, j: nat, k: nat)
    requires Candidate(name, j) == Candidate(name, k)
    ensures j == k
  {
    var stem := ROOT + name;
    if j > 0 && k > 0 {
      assert Candidate(name, j)[|stem| + 1..] == Print(j + 1);
      assert Candidate(name, k)[|stem| + 1..] == Print(k + 1);
      PrintInjective(j + 1, k + 1);
    }
  }

  function Elements(s: seq<string>): set<string> { set x | x in s }

  ghost predicate Distinct(s: seq<string>) {
    forall i, j :: 0 <= i < j < |s| ==> s[i] != s[j]
  }

  lemma {:induction false} ElementsSize(s: seq<string>)
    ensures |Elements(s)| <= |s| && (Distinct(s) ==> |Elements(s)| == |s|)
  {
    if s != [] {
      var init, last := s[..|s| - 1], s[|s| - 1];
      assert s == init + [last];
      ElementsSize(init);
      assert Elements(s) == Elements(init) + {last};
    }
  }

  /** Distinct strings that all occur in a list are no more than the list is long. */
  lemma {:induction false} Pigeonhole(wanted: seq<string>, s: seq<string>)
    requires Distinct(wanted) && forall i :: 0 <= i < |wanted| ==> wanted[i] in s
    ensures |wanted| <= |s|
  {
    ElementsSize(wanted);
    ElementsSize(s);
    assert Elements(s) == Elements(wanted) + (Elements(s) - Elements(wanted));
  }

  /** No more candidates can be taken than there are mounts. */
  lemma {:induction false} FewTaken(name: string, mounts: seq<Mount>, n: nat)
    requires forall k :: 0 <= k < n ==> Used(mounts, Candidate(name, k))
    ensures n <= |mounts|
  {
    var wanted := seq(n, k requires 0 <= k < n => Candidate(name, k));
    var paths := seq(|mounts|, i requires 0 <= i < |mounts| => mounts[i].mountPath);
    forall i, j | 0 <= i < j < n ensures wanted[i] != wanted[j] {
      if wanted[i] == wanted[j] {
        CandidatesDiffer(name, i, j);
      }
    }
    forall k | 0 <= k < n ensures wanted[k] in paths {
      assert Used(mounts, Candidate(name, k));
      var i :| 0 <= i < |mounts| && mounts[i].mountPath == Candidate(name, k);
      assert paths[i] == wanted[k];
    }
    Pigeonhole(wanted, paths);
  }

  /** The free path of this number, all before it being taken. */
  ghost predicate FirstFree(name: string, mounts: seq<Mount>, path: string, k: nat) {
    && path == "/home/exo/workspace/" + name + (if k == 0 then "" else "-" + Print(k + 1)) && !Used(mounts, path)
    && (k > 0 ==> Used(mounts, "/home/exo/workspace/" + name))
    && forall j :: 2 <= j <= k ==> Used(mounts, "/home/exo/workspace/" + name + "-" + Print(j))
  }

  lemma {:induction false} FirstFreeCandidate(name: string, mounts: seq<Mount>, k: nat)
    requires !Used(mounts, Candidate(name, k)) && forall j :: 0 <= j < k ==> Used(mounts, Candidate(name, j))
    ensures FirstFree(name, mounts, Candidate(name, k), k)
  {
    assert ROOT + name + "" == ROOT + name;
    assert k > 0 ==> ROOT + name + "-" + Print(k + 1) == ROOT + name + ("-" + Print(k + 1));
    assert k > 0 ==> Used(mounts, Candidate(name, 0));
    forall j | 2 <= j <= k ensures Used(mounts, ROOT + name + "-" + Print(j)) {
      assert Used(mounts, Candidate(name, j - 1));
    }
  }

  /** The search ends within one candidate more than there are mounts, at the first one that is free. */
  method DefaultMountPath(fileName: Option<string>, mounts: seq<Mount>) returns (path: string, k: nat)
    ensures FirstFree(if fileName.Some? && fileName.value != "" then fileName.value else "mount", mounts, path, k)
    ensures k <= |mounts|
  {
    var name := if fileName.Some? && fileName.value != "" then fileName.value else "mount";
    var candidate := ROOT + name;
    var suffix := 2;
    while Used(mounts, candidate)
      invariant suffix >= 2 && candidate == Candidate(name, suffix - 2)
      invariant forall j :: 0 <= j < suffix - 2 ==> Used(mounts, Candidate(name, j))
      invariant suffix - 2 <= |mounts|
      decreases |mounts| + 2 - suffix
    {
      candidate := ROOT + name + "-" + Print(suffix);
      suffix := suffix + 1;
      FewTaken(name, mounts, suffix - 2);
    }
    path, k := candidate, suffix - 2;
    FirstFreeCandidate(name, mounts, k);
  }

  /** The bound is tight: n mounts can take the first n candidates. */
  lemma {:induction false} BoundIsTight(name: string, n: nat) returns (mounts: seq<Mount>)
    ensures |mounts| == n && DistinctPaths(mounts)
    ensures (forall j :: 0 <= j < n ==> Used(mounts, Candidate(name, j))) && !Used(mounts, Candidate(name, n))
  {
    mounts := seq(n, i requires 0 <= i < n => Mount("", Candidate(name, i), false, false));
    forall i, j | 0 <= i < j < n + 1 ensures Candidate(name, i) != Candidate(name, j) {
      if Candidate(name, i) == Candidate(name, j) {
        CandidatesDiffer(name, i, j);
      }
    }
    forall j | 0 <= j < n ensures Used(mounts, Candidate(name, j)) {
      assert mounts[j].mountPath == Candidate(name, j);
    }
  }

  // ----- The list -----

  /** Replace the first mount at this path, or append. */
  function Placed(mounts: seq<Mount>, m: Mount): seq<Mount> {
    if mounts == [] then [m]
    else if mounts[0].mountPath == m.mountPath then [m] + mounts[1..]
    else [mounts[0]] + Placed(mounts[1..], m)
  }

  function Without(mounts: seq<Mount>, path: string): seq<Mount> {
    if mounts == [] then []
    else
      var kept, last := Without(mounts[..|mounts| - 1], path), mounts[|mounts| - 1];
      if last.mountPath == path then kept else kept + [last]
  }

  class MountList {
    var mounts: seq<Mount>

    /** A chosen path must be absolute; without one, a free default path is found. */
    method Create(hostPath: string, fileName: Option<string>, chosen: Option<string>, writable: bool, isInternal: bool)
      returns (r: Result<string, MountError>)
      modifies this
      ensures r == Failure(EmptyPath) <==> chosen.Some? && Trimmed(chosen.value) == ""
      ensures r == Failure(RelativePath) <==>
        chosen.Some? && Trimmed(chosen.value) != "" && !("/" <= chosen.value)
      ensures r.Failure? ==> r.error != NotFound && mounts == old(mounts)
      ensures r.Success? ==> mounts == Placed(old(mounts), Mount(hostPath, r.value, writable, isInternal))
      ensures r.Success? && chosen.Some? ==> r.value == chosen.value
      ensures r.Success? && chosen.None? ==>
        var name := if fileName.Some? && fileName.value != "" then fileName.value else "mount";
        exists k: nat :: k <= |old(mounts)| && FirstFree(name, old(mounts), r.value, k)
    {
      var path;
      if chosen.Some? {
        path := chosen.value;
        BlankExactly(path);
        if Blank(path) { return Failure(EmptyPath); }
        if path[0] != '/' { return Failure(RelativePath); }
      } else {
        var k;
        path, k := DefaultMountPath(fileName, mounts);
      }
      Put(Mount(hostPath, path, writable, isInternal));
      r := Success(path);
    }

    method Put(m: Mount)
      modifies this
      ensures mounts == Placed(old(mounts), m)
    {
      var i := 0;
      while i < |mounts| && mounts[i].mountPath != m.mountPath
        invariant i <= |mounts| && mounts == old(mounts)
        invariant forall j :: 0 <= j < i ==> mounts[j].mountPath != m.mountPath
      {
        i := i + 1;
      }
      if i < |mounts| {
        PlacedExact(mounts, m, i);
        mounts := mounts[i := m];
      } else {
        PlacedAtEnd(mounts, m);
        mounts := mounts + [m];
      }
    }

    method Delete(path: string) returns (r: Result<(), MountError>)
      modifies this
      ensures r.Success? <==> Used(old(mounts), path)
      ensures mounts == Without(old(mounts), path)
    {
      var kept := [];
      for i := 0 to |mounts|
        invariant mounts == old(mounts) && kept == Without(mounts[..i], path) && |kept| <= i
        invariant |kept| == i <==> !Used(mounts[..i], path)
      {
        assert mounts[..i + 1][..i] == mounts[..i];
        UsedSnoc(mounts[..i], mounts[i], path);
        assert mounts[..i + 1] == mounts[..i] + [mounts[i]];
        if mounts[i].mountPath != path {
          kept := kept + [mounts[i]];
        }
      }
      assert mounts[..|mounts|] == mounts;
      if |kept| == |mounts| {
        UnusedStays(mounts, path);
        return Failure(NotFound);
      }
      mounts := kept;
      r := Success(());
    }
  }

  lemma {:induction false} UsedSnoc(mounts: seq<Mount>, m: Mount, path: string)
    ensures Used(mounts + [m], path) <==> Used(mounts, path) || m.mountPath == path
  {
    if Used(mounts, path) {
      var i :| 0 <= i < |mounts| && mounts[i].mountPath == path;
      assert (mounts + [m])[i].mountPath == path;
    }
    assert (mounts + [m])[|mounts|] == m;
  }

  lemma {:induction false} UnusedStays(mounts: seq<Mount>, path: string)
    requires !Used(mounts, path)
    ensures Without(mounts, path) == mounts
  {
    if mounts != [] {
      var init, last := mounts[..|mounts| - 1], mounts[|mounts| - 1];
      assert mounts == init + [last];
      UsedSnoc(init, last, path);
      UnusedStays(init, path);
    }
  }

  lemma {:induction false} UsedCons(m: Mount, rest: seq<Mount>, path: string)
    ensures Used([m] + rest, path) <==> m.mountPath == path || Used(rest, path)
  {
    assert ([m] + rest)[0] == m;
    if Used(rest, path) {
      var i :| 0 <= i < |rest| && rest[i].mountPath == path;
      assert ([m] + rest)[i + 1].mountPath == path;
    }
    if Used([m] + rest, path) && m.mountPath != path {
      var i :| 0 <= i < |rest| + 1 && ([m] + rest)[i].mountPath == path;
      assert rest[i - 1].mountPath == path;
    }
  }

  lemma {:induction false} DistinctCons(m: Mount, rest: seq<Mount>)
    ensures DistinctPaths([m] + rest) <==> DistinctPaths(rest) && !Used(rest, m.mountPath)
  {
    var all := [m] + rest;
    assert forall i :: 0 <= i < |rest| ==> all[i + 1] == rest[i];
    if DistinctPaths(all) {
      forall i, j | 0 <= i < j < |rest| ensures rest[i].mountPath != rest[j].mountPath {
        assert all[i + 1].mountPath != all[j + 1].mountPath;
      }
      forall i | 0 <= i < |rest| ensures rest[i].mountPath != m.mountPath {
        assert all[0].mountPath != all[i + 1].mountPath;
      }
    }
  }

  /** Creating a mount keeps the paths distinct and adds exactly its own path. */
  lemma {:induction false} PlacedDistinct(mounts: seq<Mount>, m: Mount)
    requires DistinctPaths(mounts)
    ensures DistinctPaths(Placed(mounts, m)) && m in Placed(mounts, m)
    ensures forall p :: Used(Placed(mounts, m), p) <==> Used(mounts, p) || p == m.mountPath
    ensures forall x :: x in mounts && x.mountPath != m.mountPath ==> x in Placed(mounts, m)
    ensures |Placed(mounts, m)| == |mounts| + if Used(mounts, m.mountPath) then 0 else 1
  {
    if mounts == [] {
      assert [m][0] == m;
    } else {
      var head, rest := mounts[0], mounts[1..];
      assert mounts == [head] + rest;
      DistinctCons(head, rest);
      forall p ensures Used(mounts, p) <==> head.mountPath == p || Used(rest, p) { UsedCons(head, rest, p); }
      if head.mountPath == m.mountPath {
        DistinctCons(m, rest);
        forall p ensures Used([m] + rest, p) <==> m.mountPath == p || Used(rest, p) { UsedCons(m, rest, p); }
      } else {
        PlacedDistinct(rest, m);
        var after := Placed(rest, m);
        DistinctCons(head, after);
        forall p ensures Used([head] + after, p) <==> head.mountPath == p || Used(after, p) {
          UsedCons(head, after, p);
        }
      }
    }
  }

  /** The first mount at the path is replaced where it stands; without one the mount goes to the end. */
  lemma {:induction false} PlacedExact(mounts: seq<Mount>, m: Mount, i: nat)
    requires i < |mounts| && mounts[i].mountPath == m.mountPath
    requires forall j :: 0 <= j < i ==> mounts[j].mountPath != m.mountPath
    ensures Placed(mounts, m) == mounts[i := m]
  {
    if i > 0 {
      PlacedExact(mounts[1..], m, i - 1);
      assert mounts[i := m] == [mounts[0]] + mounts[1..][i - 1 := m];
    }
  }

  /** Deleting goes through the list piece by piece, so what stays keeps its order. */
  lemma {:induction false} WithoutJoins(x: seq<Mount>, y: seq<Mount>, path: string)
    ensures Without(x + y, path) == Without(x, path) + Without(y, path)
  {
    if y == [] {
      assert x + y == x;
    } else {
      assert (x + y)[..|x + y| - 1] == x + y[..|y| - 1];
      WithoutJoins(x, y[..|y| - 1], path);
    }
  }

  /** Deleting removes exactly the mounts at that path, and keeps the paths distinct. */
  lemma {:induction false} WithoutExact(mounts: seq<Mount>, path: string)
    ensures forall x :: x in Without(mounts, path) <==> x in mounts && x.mountPath != path
    ensures DistinctPaths(mounts) ==> DistinctPaths(Without(mounts, path))
  {
    if mounts != [] {
      var init, last := mounts[..|mounts| - 1], mounts[|mounts| - 1];
      assert mounts == init + [last];
      WithoutExact(init, path);
      DistinctSnoc(init, last);
      DistinctSnoc(Without(init, path), last);
    }
  }

  lemma {:induction false} DistinctSnoc(init: seq<Mount>, last: Mount)
    ensures DistinctPaths(init + [last]) <==>
      DistinctPaths(init) && forall x :: x in init ==> x.mountPath != last.mountPath
  {
    var all := init + [last];
    assert forall i :: 0 <= i < |init| ==> all[i] == init[i];
    if DistinctPaths(all) {
      forall x | x in init ensures x.mountPath != last.mountPath {
        var i :| 0 <= i < |init| && init[i] == x;
        assert all[i].mountPath != all[|init|].mountPath;
      }
      forall i, j | 0 <= i < j < |init| ensures init[i].mountPath != init[j].mountPath {
        assert all[i].mountPath != all[j].mountPath;
      }
    }
  }

  /** Deleting a mount that was just created at a free path restores the list. */
  lemma {:induction false} DeleteUndoesCreate(mounts: seq<Mount>, m: Mount)
    requires !Used(mounts, m.mountPath)
    ensures Without(Placed(mounts, m), m.mountPath) == mounts
  {
    PlacedAtEnd(mounts, m);
    UnusedStays(mounts, m.mountPath);
    assert (mounts + [m])[..|mounts|] == mounts;
  }

  lemma {:induction false} PlacedAtEnd(mounts: seq<Mount>, m: Mount)
    requires !Used(mounts, m.mountPath)
    ensures Placed(mounts, m) == mounts + [m]
  {
    if mounts != [] {
      assert mounts == [mounts[0]] + mounts[1..];
      UsedCons(mounts[0], mounts[1..], m.mountPath);
      PlacedAtEnd(mounts[1..], m);
    }
  }
}
