/** The persisted project state (bugtrace/utils/state.py): `.bugtrace/state.json` with the
    configuration hash, the files already indexed and free-form metadata. The clock is a
    parameter: every operation that stamps a time receives `now`, the ISO text of
    `datetime.now()`. */
module State {
  import opened Strings
  import opened PyValue

  /** The JSON object held in state.json. A key the file lacks is `None` here;
      `last_scan`, `last_index` and `config_hash` are also `None` when stored as null. */
  datatype ProjectState = ProjectState(
    version: string,
    createdAt: string,
    lastScan: Option<string>,
    lastIndex: Option<string>,
    configHash: Option<string>,
    indexedFiles: Option<map<string, string>>,
    metadata: Option<Dict>)

  /** What the disk holds at `.bugtrace/state.json`. */
  datatype StateFile = Missing | Corrupt | Stored(state: ProjectState)

  /** `_default_state()` */
  function DefaultState(now: string): (s: ProjectState)
    ensures s.configHash.None? && s.lastScan.None? && s.lastIndex.None?
    ensures s.indexedFiles == Some(map[])
    ensures s.metadata.Some? && Get(s.metadata.value, "total_files") == Some(VInt(0))
    ensures Get(s.metadata.value, "total_chunks") == Some(VInt(0))
    ensures Get(s.metadata.value, "last_analysis") == Some(VNone)
  {
    ProjectState("0.1.0", now, None, None, None, Some(map[]),
                 Some([("total_files", VInt(0)), ("total_chunks", VInt(0)), ("last_analysis", VNone)]))
  }

  /** `_load_state()`: the stored state, or the default when the file is missing or
      cannot be parsed. */
  function LoadState(disk: StateFile, now: string): (s: ProjectState)
    ensures disk.Stored? ==> s == disk.state
    ensures !disk.Stored? ==> s == DefaultState(now)
  {
    match disk
    case Stored(st) => st
    case _ => DefaultState(now)
  }

  /** The files whose manifest hash differs from the indexed one, or that were never
      indexed, with their manifest hash. */
  function FilesToIndex(manifest: map<string, string>, indexed: map<string, string>): map<string, string> {
    map f | f in manifest && (f !in indexed || indexed[f] != manifest[f]) :: manifest[f]
  }

  /** `config_changed` on a given state: true unless the stored hash is `current`. */
  predicate ConfigChangedIn(s: ProjectState, current: string) {
    s.configHash != Some(current)
  }

  class StateManager {
    var state: ProjectState
    var disk: StateFile

    /** `StateManager(state_dir)`: loads the state without writing it back. */
    constructor (disk: StateFile, now: string)
      ensures this.disk == disk
      ensures state == LoadState(disk, now)
    {
      this.disk := disk;
      state := LoadState(disk, now);
    }

    /** `save()` */
    method Save()
      modifies this
      ensures state == old(state)
      ensures disk == Stored(state)
    {
      disk := Stored(state);
    }

    /** `update_scan_time()` */
    method UpdateScanTime(now: string)
      modifies this
      ensures state == old(state).(lastScan := Some(now))
      ensures disk == Stored(state)
    {
      state := state.(lastScan := Some(now));
      Save();
    }

    /** `update_index_time()` */
    method UpdateIndexTime(now: string)
      modifies this
      ensures state == old(state).(lastIndex := Some(now))
      ensures disk == Stored(state)
    {
      state := state.(lastIndex := Some(now));
      Save();
    }

    /** `update_config_hash(new_hash)`: afterwards the configuration counts as unchanged
      for exactly that hash. */
    method UpdateConfigHash(newHash: string)
      modifies this
      ensures state == old(state).(configHash := Some(newHash))
      ensures disk == Stored(state)
      ensures !ConfigChanged(newHash)
      ensures forall h :: ConfigChanged(h) <==> h != newHash
    {
      state := state.(configHash := Some(newHash));
      Save();
    }

    /** `config_changed(current_hash)` */
    predicate ConfigChanged(current: string)
      reads this
    {
      ConfigChangedIn(state, current)
    }

    /** `get_files_to_index(manifest)`: the loop over the manifest's entries. */
    method GetFilesToIndex(manifest: map<string, string>) returns (filesToIndex: map<string, string>)
      ensures filesToIndex == FilesToIndex(manifest, state.indexedFiles.GetOr(map[]))
    {
      var indexed := state.indexedFiles.GetOr(map[]);
      filesToIndex := map[];
      var remaining := manifest.Keys;
      while remaining != {}
        invariant remaining <= manifest.Keys
        invariant filesToIndex == FilesToIndex(map f | f in manifest && f !in remaining :: manifest[f], indexed)
        decreases |remaining|
      {
        var filepath :| filepath in remaining;
        var fileHash := manifest[filepath];
        if filepath !in indexed || indexed[filepath] != fileHash {
          filesToIndex := filesToIndex[filepath := fileHash];
        }
        remaining := remaining - {filepath};
      }
      assert (map f | f in manifest && f !in remaining :: manifest[f]) == manifest;
    }

    /** `mark_files_indexed(files)` */
    method MarkFilesIndexed(files: map<string, string>)
      modifies this
      ensures state == old(state).(indexedFiles := Some(old(state).indexedFiles.GetOr(map[]) + files))
      ensures disk == Stored(state)
    {
      var indexed := state.indexedFiles.GetOr(map[]);
      state := state.(indexedFiles := Some(indexed + files));
      Save();
    }

    /** `update_metadata(**kwargs)` */
    method UpdateMetadata(kwargs: Dict)
      requires UniqueKeys(kwargs)
      modifies this
      ensures state == old(state).(metadata := Some(Update(old(state).metadata.GetOr([]), kwargs)))
      ensures disk == Stored(state)
      ensures forall k :: Get(state.metadata.value, k) ==
                          if Has(kwargs, k) then Get(kwargs, k) else Get(old(state).metadata.GetOr([]), k)
    {
      forall k ensures Get(Update(state.metadata.GetOr([]), kwargs), k) ==
                       if Has(kwargs, k) then Get(kwargs, k) else Get(state.metadata.GetOr([]), k) {
        GetUpdate(state.metadata.GetOr([]), kwargs, k);
      }
      var metadata := state.metadata.GetOr([]);
      state := state.(metadata := Some(Update(metadata, kwargs)));
      Save();
    }
  }

  /** Marking the selected files as indexed converges: asking again with the same
      manifest selects nothing. */
  lemma MarkingSelectedFilesConverges(manifest: map<string, string>, indexed: map<string, string>)
    ensures FilesToIndex(manifest, indexed + FilesToIndex(manifest, indexed)) == map[]
  {
    var todo := FilesToIndex(manifest, indexed);
    var after := indexed + todo;
    forall f | f in manifest ensures f in after && after[f] == manifest[f] {
      if f !in todo {
        assert f in indexed && indexed[f] == manifest[f];
      }
    }
    assert FilesToIndex(manifest, after).Keys == {};
  }

  /** When every manifest file is indexed with its current hash there is nothing to do,
      and a file whose hash moved is selected again. */
  lemma UpToDateSelectsNothing(manifest: map<string, string>, indexed: map<string, string>, f: string, h: string)
    requires forall g | g in manifest :: g in indexed && indexed[g] == manifest[g]
    ensures FilesToIndex(manifest, indexed) == map[]
    ensures f in manifest && manifest[f] != h ==> f in FilesToIndex(manifest[f := h], indexed)
  {
    assert FilesToIndex(manifest, indexed).Keys == {};
  }
}
