/** The data directory: one JSON document per file name. Reading a file
    that does not exist gives an empty list; writing may fail, in which case
    the writer is told so and nothing is raised. */
module Store {
  import opened Json

  /** The directory after a write of `doc` to `name` that reported `ok`. */
  function Written(files: map<string, Json>, name: string, doc: Json, ok: bool): map<string, Json> {
    if ok then files[name := doc] else files
  }

  /** What a read of `name` gives. */
  function Read(files: map<string, Json>, name: string): Json {
    if name in files then files[name] else JArr([])
  }

  /** A read of a file that was just written successfully gives back what
      was written, and the other files are untouched. */
  lemma ReadAfterWrite(files: map<string, Json>, name: string, other: string, doc: Json)
    ensures Read(Written(files, name, doc, true), name) == doc
    ensures other != name ==> Read(Written(files, name, doc, true), other) == Read(files, other)
  {
  }

  class FileStore {
    var files: map<string, Json>

    /** A data directory holding `files`. */
    constructor(files: map<string, Json>)
      ensures this.files == files
    {
      this.files := files;
    }

    /** `load_from_file`: the document stored under `name`, or an empty list
        when there is none. */
    function Load(name: string): (doc: Json)
      reads this
      ensures name !in files ==> doc == JArr([])
      ensures name in files ==> doc == files[name]
    {
      Read(files, name)
    }

    /** `save_to_file`: whether the write succeeds is up to the environment;
        a failed write is reported as `false` and changes nothing. */
    method Save(name: string, doc: Json) returns (ok: bool)
      modifies this
      ensures files == Written(old(files), name, doc, ok)
    {
      ok :| true;
      if ok {
        files := files[name := doc];
      }
    }
  }
}
