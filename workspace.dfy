/**
 * WorkspaceIndexer: the lists of server command names and preset files the
 * assistant may refer to. The server's command map and the preset
 * directory's listing are inputs; `None` stands for the reflective lookup
 * failing and for listFiles returning null.
 */
module Workspace {
  import opened Wrappers
  import opened Text

  /** An entry of the preset directory. */
  datatype FileEntry = FileEntry(name: string, isFile: bool)

  /** A command name is indexed unless it is namespaced ("plugin:name"). */
  predicate IsBaseCommand(name: string) {
    !Contains(name, ":")
  }

  predicate IsPreset(f: FileEntry) {
    f.isFile && EndsWith(f.name, ".txt")
  }

  /** The base command names, in the command map's iteration order. */
  function BaseCommands(names: seq<string>): seq<string>
    decreases |names|
  {
    if names == [] then []
    else
      var rest := BaseCommands(names[..|names| - 1]);
      var last := names[|names| - 1];
      if IsBaseCommand(last) then rest + [last] else rest
  }

  /** The preset file names, in listing order. */
  function PresetNames(files: seq<FileEntry>): seq<string>
    decreases |files|
  {
    if files == [] then []
    else
      var rest := PresetNames(files[..|files| - 1]);
      var last := files[|files| - 1];
      if IsPreset(last) then rest + [last.name] else rest
  }

  /** Exactly the names without ':' are kept, and nothing is repeated that was not repeated. */
  lemma {:induction false} BaseCommandsExact(names: seq<string>)
    ensures forall x :: x in BaseCommands(names) <==> x in names && IsBaseCommand(x)
    ensures |BaseCommands(names)| <= |names|
    ensures (forall i, j :: 0 <= i < j < |names| ==> names[i] != names[j]) ==>
              forall i, j :: 0 <= i < j < |BaseCommands(names)| ==> BaseCommands(names)[i] != BaseCommands(names)[j]
    decreases |names|
  {
    if names != [] {
      var init := names[..|names| - 1];
      BaseCommandsExact(init);
      assert forall x :: x in names <==> x in init || x == names[|names| - 1];
      if forall i, j :: 0 <= i < j < |names| ==> names[i] != names[j] {
        assert forall i, j :: 0 <= i < j < |init| ==> init[i] != init[j] by {
          forall i, j | 0 <= i < j < |init| ensures init[i] != init[j] {
            assert init[i] == names[i] && init[j] == names[j];
          }
        }
        assert names[|names| - 1] !in init;
      }
    }
  }

  /** Exactly the regular files whose names end in ".txt" are kept. */
  lemma {:induction false} PresetNamesExact(files: seq<FileEntry>)
    ensures forall x :: x in PresetNames(files) <==> exists i :: 0 <= i < |files| && IsPreset(files[i]) && files[i].name == x
    decreases |files|
  {
    if files != [] {
      var init := files[..|files| - 1];
      PresetNamesExact(init);
      forall x | x in PresetNames(files)
        ensures exists i :: 0 <= i < |files| && IsPreset(files[i]) && files[i].name == x
      {
        if x !in PresetNames(init) {
          assert IsPreset(files[|files| - 1]) && files[|files| - 1].name == x;
        } else {
          var i :| 0 <= i < |init| && IsPreset(init[i]) && init[i].name == x;
          assert files[i] == init[i];
        }
      }
      forall x | exists i :: 0 <= i < |files| && IsPreset(files[i]) && files[i].name == x
        ensures x in PresetNames(files)
      {
        var i :| 0 <= i < |files| && IsPreset(files[i]) && files[i].name == x;
        if i < |files| - 1 {
          assert init[i] == files[i];
        }
      }
    }
  }

  class WorkspaceIndexer {
    var indexedCommands: seq<string>
    var indexedPresets: seq<string>

    constructor ()
      ensures indexedCommands == [] && indexedPresets == []
    {
      indexedCommands := [];
      indexedPresets := [];
    }

    /**
     * indexCommands: the list is cleared first, so it holds exactly this
     * map's base command names; a failed lookup leaves it empty.
     */
    method IndexCommands(known: Option<seq<string>>)
      modifies this
      ensures indexedCommands == (if known.Some? then BaseCommands(known.value) else [])
      ensures indexedPresets == old(indexedPresets)
    {
      indexedCommands := [];
      if known.Some? {
        // The stream filter over the map's key set.
        indexedCommands := BaseCommands(known.value);
      }
    }

    /**
     * indexPresets: cleared first, then every regular ".txt" file of the
     * listing is appended in order; a null listing leaves the list empty.
     */
    method IndexPresets(listing: Option<seq<FileEntry>>)
      modifies this
      ensures indexedPresets == (if listing.Some? then PresetNames(listing.value) else [])
      ensures indexedCommands == old(indexedCommands)
    {
      indexedPresets := [];
      if listing.Some? {
        var files := listing.value;
        for i := 0 to |files|
          invariant indexedPresets == PresetNames(files[..i])
          invariant indexedCommands == old(indexedCommands)
        {
          assert files[..i + 1][..i] == files[..i];
          if files[i].isFile && EndsWith(files[i].name, ".txt") {
            indexedPresets := indexedPresets + [files[i].name];
          }
        }
        assert files[..|files|] == files;
      }
    }

    /** indexAll: commands, then presets. */
    method IndexAll(known: Option<seq<string>>, listing: Option<seq<FileEntry>>)
      modifies this
      ensures indexedCommands == (if known.Some? then BaseCommands(known.value) else [])
      ensures indexedPresets == (if listing.Some? then PresetNames(listing.value) else [])
    {
      IndexCommands(known);
      IndexPresets(listing);
    }
  }
}
