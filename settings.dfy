/** `DocumentUploadSettings` and `DocumentUploadOrder`: the immutable configuration of one import run. */
module Settings {

  /** A C# `int`. */
  type Int32 = x: int | -0x8000_0000 <= x < 0x8000_0000

  /** A non-negative `TimeSpan`, in whole milliseconds. */
  type Duration = nat

  /** Order of document uploading inside a portion. */
  datatype DocumentUploadOrder = Parallel | Sequential

  datatype DocumentUploadSettings = DocumentUploadSettings(
    agentStartTimeout: Duration,       // time within which all agents start
    uploadOrder: DocumentUploadOrder,  // order of uploading inside a portion
    portionSize: Int32,                // files per portion; <= 0: one portion with every file
    uploadPortionsInterval: Duration,  // interval between the portions of one agent
    uploadInterval: Duration,          // interval between the units of a portion (Sequential only)
    isTraceEnabled: bool,              // log every imported document
    batchSize: Int32)                  // documents per batch; <= 0: discrete mode, one file per request
}

/** `DocumentInfo`: what the importer reads about one file before uploading it. */
module Documents {

  type Byte = b: int | 0 <= b < 256

  datatype DocumentInfo = DocumentInfo(
    name: string,      // file name without extension
    fullName: string,  // path relative to the folder two levels above the file
    extension: string, // extension without the dot
    body: seq<Byte>)   // file contents; empty when the file does not exist
}
