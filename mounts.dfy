/**
 * The volume-mount compiler of `App.CreateSandbox` (modal-go/app.go:90-101):
 * a map from mount path to Volume becomes VolumeMount messages, one per
 * entry, in the map's (unspecified) iteration order.
 */
module Mounts {
  import opened Wrappers
  import opened Proto
  import opened Objects

  /** The mount built for one map entry; the two flags are fixed. */
  function MountFor(path: string, volume: Volume): VolumeMount {
    VolumeMount(volume.volumeId, path, true, false)
  }

  /** The mount paths that occur in `mounts`. */
  function PathsOf(mounts: seq<VolumeMount>): set<string> {
    set i | 0 <= i < |mounts| :: mounts[i].mountPath
  }

  /** No two mounts of the list share a mount path. */
  predicate DistinctPaths(mounts: seq<VolumeMount>) {
    forall i, j :: 0 <= i < j < |mounts| ==> mounts[i].mountPath != mounts[j].mountPath
  }

  /**
   * `mounts` lists the mounts of `volumes` in some order: every entry of the
   * map once, and nothing else.
   */
  predicate IsMountListFor(mounts: seq<VolumeMount>, volumes: map<string, Volume>) {
    && PathsOf(mounts) == volumes.Keys
    && DistinctPaths(mounts)
    && forall i :: 0 <= i < |mounts| ==>
         mounts[i].mountPath in volumes && mounts[i] == MountFor(mounts[i].mountPath, volumes[mounts[i].mountPath])
  }

  /** The set of mounts a map compiles to, independent of order. */
  function MountSet(volumes: map<string, Volume>): set<VolumeMount> {
    set path | path in volumes :: MountFor(path, volumes[path])
  }

  /**
   * The nil check and map loop of app.go:90-101; a nil map (None) yields no
   * mounts at all.
   */
  method CompileVolumeMounts(volumes: Option<map<string, Volume>>) returns (mounts: seq<VolumeMount>)
    ensures volumes.None? ==> mounts == []
    ensures volumes.Some? ==> IsMountListFor(mounts, volumes.value)
    ensures volumes.Some? ==> |mounts| == |volumes.value|
    ensures volumes.Some? ==> multiset(mounts) == multiset(MountSet(volumes.value))
    ensures forall i :: 0 <= i < |mounts| ==> mounts[i].allowBackgroundCommits && !mounts[i].readOnly
  {
    mounts := [];
    if volumes.Some? {
      mounts := MountEntries(volumes.value);
      MountListLength(mounts, volumes.value);
      MountListMultiset(mounts, volumes.value);
    }
  }

  /**
   * The `for mountPath, volume := range options.Volumes` loop. It visits the
   * keys in an order of its own choosing, modelled by picking any key not
   * yet visited.
   */
  method MountEntries(volumes: map<string, Volume>) returns (mounts: seq<VolumeMount>)
    ensures IsMountListFor(mounts, volumes)
  {
    mounts := [];
    var remaining := volumes.Keys;
    while remaining != {}
      invariant remaining <= volumes.Keys
      invariant PathsOf(mounts) == volumes.Keys - remaining
      invariant DistinctPaths(mounts)
      invariant forall i :: 0 <= i < |mounts| ==>
        mounts[i].mountPath in volumes && mounts[i] == MountFor(mounts[i].mountPath, volumes[mounts[i].mountPath])
      decreases remaining
    {
      var path :| path in remaining;
      var mount := MountFor(path, volumes[path]);
      assert forall i :: 0 <= i < |mounts| ==> mounts[i].mountPath != path by {
        assert forall i :: 0 <= i < |mounts| ==> mounts[i].mountPath in PathsOf(mounts);
      }
      PathsOfAppend(mounts, mount);
      mounts := mounts + [mount];
      remaining := remaining - {path};
    }
  }

  lemma PathsOfAppend(mounts: seq<VolumeMount>, mount: VolumeMount)
    ensures PathsOf(mounts + [mount]) == PathsOf(mounts) + {mount.mountPath}
  {
    var s := mounts + [mount];
    forall path | path in PathsOf(s) ensures path in PathsOf(mounts) + {mount.mountPath} {
      var i :| 0 <= i < |s| && s[i].mountPath == path;
      if i < |mounts| { assert mounts[i] == s[i]; }
    }
    forall path | path in PathsOf(mounts) ensures path in PathsOf(s) {
      var i :| 0 <= i < |mounts| && mounts[i].mountPath == path;
      assert s[i] == mounts[i];
    }
    assert s[|mounts|] == mount;
  }

  lemma {:induction false} DistinctPathsCount(mounts: seq<VolumeMount>)
    requires DistinctPaths(mounts)
    ensures |PathsOf(mounts)| == |mounts|
    decreases |mounts|
  {
    if mounts != [] {
      var n := |mounts| - 1;
      DistinctPathsCount(mounts[..n]);
      assert mounts == mounts[..n] + [mounts[n]];
      PathsOfAppend(mounts[..n], mounts[n]);
    }
  }

  /** A mount list has exactly one mount per map entry. */
  lemma MountListLength(mounts: seq<VolumeMount>, volumes: map<string, Volume>)
    requires IsMountListFor(mounts, volumes)
    ensures |mounts| == |volumes|
  {
    DistinctPathsCount(mounts);
  }

  lemma {:induction false} DistinctPathsMultiset(mounts: seq<VolumeMount>)
    requires DistinctPaths(mounts)
    ensures multiset(mounts) == multiset(set i | 0 <= i < |mounts| :: mounts[i])
    decreases |mounts|
  {
    if mounts != [] {
      var n := |mounts| - 1;
      DistinctPathsMultiset(mounts[..n]);
      assert mounts == mounts[..n] + [mounts[n]];
      var before := set i | 0 <= i < n :: mounts[..n][i];
      assert mounts[n] !in before;
      assert (set i | 0 <= i < |mounts| :: mounts[i]) == before + {mounts[n]};
    }
  }

  /**
   * Order aside, a mount list is the map's mount set: the same mounts, each
   * exactly once.
   */
  lemma MountListMultiset(mounts: seq<VolumeMount>, volumes: map<string, Volume>)
    requires IsMountListFor(mounts, volumes)
    ensures multiset(mounts) == multiset(MountSet(volumes))
  {
    DistinctPathsMultiset(mounts);
    assert (set i | 0 <= i < |mounts| :: mounts[i]) == MountSet(volumes) by {
      forall path | path in volumes
        ensures MountFor(path, volumes[path]) in (set i | 0 <= i < |mounts| :: mounts[i])
      {
        assert path in PathsOf(mounts);
        var i :| 0 <= i < |mounts| && mounts[i].mountPath == path;
      }
    }
  }
}
