/**
 * ResourceUtil: copying packaged resources out of the plugin JAR into the
 * plugin's data folder. The folder is a map from relative path to content,
 * the JAR a map from resource name to content, and the JAR's entry listing
 * an input (`None` when the JAR cannot be opened or listed).
 */
module Resources {
  import opened Wrappers
  import opened Text

  datatype JarEntry = JarEntry(name: string, isDirectory: bool)

  /** The resource directory with a trailing '/'. */
  function NormaliseDir(dir: string): (r: string)
    ensures EndsWith(r, "/")
    ensures EndsWith(dir, "/") ==> r == dir
    ensures !EndsWith(dir, "/") ==> r == dir + "/"
  {
    if EndsWith(dir, "/") then dir
    else
      var r := dir + "/";
      assert r[|r| - 1..] == "/";
      r
  }

  lemma NormaliseIdempotent(dir: string)
    ensures NormaliseDir(NormaliseDir(dir)) == NormaliseDir(dir)
  {
  }

  /** An entry is saved when it lies under `dir`, is a file, and matches the extension filter (none when None). */
  predicate Selected(e: JarEntry, dir: string, extension: Option<string>) {
    && StartsWith(e.name, dir)
    && !e.isDirectory
    && (extension.None? || EndsWith(e.name, extension.value))
  }

  /**
   * saveResource: the resource is written only when replacing or when the
   * file does not exist yet; a resource missing from the JAR is ignored.
   */
  function SaveRule(files: map<string, string>, jar: map<string, string>, path: string, replace: bool): map<string, string> {
    if (replace || path !in files) && path in jar then files[path := jar[path]] else files
  }

  /** The folder after the entries, in order, have gone through the selection and saveResource. */
  function Released(files: map<string, string>, jar: map<string, string>, dir: string, replace: bool,
                    extension: Option<string>, entries: seq<JarEntry>): map<string, string>
    decreases |entries|
  {
    if entries == [] then files
    else
      var before := Released(files, jar, dir, replace, extension, entries[..|entries| - 1]);
      var e := entries[|entries| - 1];
      if Selected(e, dir, extension) then SaveRule(before, jar, e.name, replace) else before
  }

  /** An entry that is selected and packaged: the one kind of entry that can write a file. */
  ghost predicate Writes(entries: seq<JarEntry>, jar: map<string, string>, dir: string, extension: Option<string>, p: string) {
    p in jar && exists i :: 0 <= i < |entries| && Selected(entries[i], dir, extension) && entries[i].name == p
  }

  /** Without replace, every file that existed keeps its content. */
  lemma {:induction false} NoReplaceKeepsFiles(files: map<string, string>, jar: map<string, string>, dir: string,
                                               extension: Option<string>, entries: seq<JarEntry>)
    ensures var r := Released(files, jar, dir, false, extension, entries);
      forall p :: p in files ==> p in r && r[p] == files[p]
    decreases |entries|
  {
    if entries != [] {
      NoReplaceKeepsFiles(files, jar, dir, extension, entries[..|entries| - 1]);
    }
  }

  /** Every file that is new or changed came from a selected, packaged entry, with the JAR's content. */
  lemma {:induction false} OnlySelectedWritten(files: map<string, string>, jar: map<string, string>, dir: string, replace: bool,
                                               extension: Option<string>, entries: seq<JarEntry>)
    ensures var r := Released(files, jar, dir, replace, extension, entries);
      forall p :: p in r ==> (p in files && r[p] == files[p]) || (Writes(entries, jar, dir, extension, p) && r[p] == jar[p])
    decreases |entries|
  {
    if entries != [] {
      var init := entries[..|entries| - 1];
      OnlySelectedWritten(files, jar, dir, replace, extension, init);
      var r := Released(files, jar, dir, replace, extension, entries);
      forall p | p in r && !(p in files && r[p] == files[p])
        ensures Writes(entries, jar, dir, extension, p) && r[p] == jar[p]
      {
        var e := entries[|entries| - 1];
        if p == e.name && Selected(e, dir, extension) && r[p] == jar[p] && p in jar {
          assert Selected(entries[|entries| - 1], dir, extension) && entries[|entries| - 1].name == p;
        } else {
          var i :| 0 <= i < |init| && Selected(init[i], dir, extension) && init[i].name == p;
          assert entries[i] == init[i];
        }
      }
    }
  }

  /**
   * Every selected entry that the JAR holds ends up as a file; with replace,
   * or when the file did not exist before, it has the JAR's content.
   */
  lemma {:induction false} SelectedPresent(files: map<string, string>, jar: map<string, string>, dir: string, replace: bool,
                                           extension: Option<string>, entries: seq<JarEntry>)
    ensures var r := Released(files, jar, dir, replace, extension, entries);
      forall i :: 0 <= i < |entries| && Selected(entries[i], dir, extension) && entries[i].name in jar ==>
        entries[i].name in r && (replace || entries[i].name !in files ==> r[entries[i].name] == jar[entries[i].name])
    decreases |entries|
  {
    if entries != [] {
      var init := entries[..|entries| - 1];
      SelectedPresent(files, jar, dir, replace, extension, init);
      if !replace {
        OnlySelectedWritten(files, jar, dir, replace, extension, init);
      }
      forall i | 0 <= i < |init|
        ensures entries[i] == init[i]
      {
      }
    }
  }

  class DataFolder {
    /** The files under the data folder, by relative path. */
    var files: map<string, string>
    /** The resources packaged in the plugin JAR. */
    const jar: map<string, string>

    constructor (files: map<string, string>, jar: map<string, string>)
      ensures this.files == files && this.jar == jar
    {
      this.files := files;
      this.jar := jar;
    }

    method SaveResource(path: string, replace: bool)
      modifies this
      ensures files == SaveRule(old(files), jar, path, replace)
    {
      if replace || path !in files {
        if path in jar {
          files := files[path := jar[path]];
        }
        // Otherwise the JAR has no such resource: the IllegalArgumentException is ignored.
      }
    }

    /** releaseResources; a JAR that cannot be listed is logged and changes nothing. */
    method ReleaseResources(dir: string, replace: bool, extension: Option<string>, entries: Option<seq<JarEntry>>)
      modifies this
      ensures files == if entries.None? then old(files)
                       else Released(old(files), jar, NormaliseDir(dir), replace, extension, entries.value)
    {
      var resourceDir := dir;
      if !EndsWith(resourceDir, "/") {
        resourceDir := resourceDir + "/";
      }
      if entries.None? {
        return;
      }
      var es := entries.value;
      var i := 0;
      while i < |es|
        invariant 0 <= i <= |es|
        invariant files == Released(old(files), jar, resourceDir, replace, extension, es[..i])
      {
        assert es[..i + 1][..i] == es[..i];
        var name := es[i].name;
        if StartsWith(name, resourceDir) && !es[i].isDirectory {
          if extension.None? || EndsWith(name, extension.value) {
            SaveResource(name, replace);
          }
        }
        i := i + 1;
      }
      assert es[..|es|] == es;
    }
  }
}
