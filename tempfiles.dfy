/** The working directory for job artefacts, shared by the workers and the janitor. */
module TempFiles {

  /** The paths of the files that currently exist under the temp directory. */
  class TempDir {
    var files: set<string>

    constructor (files: set<string>)
      ensures this.files == files
    {
      this.files := files;
    }
  }
}
