/** PDF loading for submission (src/cli/utils/file.ts): `validatePDF` checks
    the file header, `loadPDFFile` checks that the path exists, reads the
    file, validates it and stores it in the form under a key, rewrapping any
    read or validation failure. The filesystem is a map from path to what
    reading that path yields; `FormData` keeps its entries in order. */
module PdfFile {
  import opened Wrappers
  import opened JsStrings
  import opened ServerUtils
  import opened PosixPath

  /** The PDF file header `%PDF-` as bytes (ISO 32000-1, section 7.5.2). */
  const PdfHeader: seq<Byte> := [0x25, 0x50, 0x44, 0x46, 0x2D]

  function NotPdfMessage(fileName: string): string
  {
    "The provided " + fileName + " file is not a valid PDF."
  }

  /** `validatePDF(buffer, fileName)`: passes when the first five bytes decode to `%PDF-`. */
  function ValidatePdf(buffer: seq<Byte>, fileName: string): (r: Outcome<string>)
    ensures r.Pass? <==> |buffer| >= 5 && forall i :: 0 <= i < 5 ==> buffer[i] as char == "%PDF-"[i]
    ensures r.Fail? ==> r.error == NotPdfMessage(fileName)
  {
    if |buffer| >= 5 && buffer[..5] == PdfHeader then Pass else Fail(NotPdfMessage(fileName))
  }

  /** Bytes after the header never change the verdict. */
  lemma ValidatePdfIgnoresTail(head: seq<Byte>, tail: seq<Byte>, fileName: string)
    requires |head| == 5
    ensures ValidatePdf(head + tail, fileName) == ValidatePdf(head, fileName)
  {
    assert (head + tail)[..5] == head;
  }

  /** A buffer shorter than the header is rejected, naming the file. */
  lemma ShortBufferRejected(buffer: seq<Byte>, fileName: string)
    requires |buffer| < 5
    ensures ValidatePdf(buffer, fileName) == Fail(NotPdfMessage(fileName))
  {
  }

  /** The rejection message names the file right after "The provided ". */
  lemma RejectionNamesFile(fileName: string)
    ensures var m := NotPdfMessage(fileName);
            StartsWith(m, "The provided ") && m[13..13 + |fileName|] == fileName
  {
  }

  /** One form entry: a file value under a name, with its file name. */
  datatype FormEntry = FormEntry(name: string, value: seq<Byte>, fileName: string)

  /** The entries called `name`, in order. */
  function Named(entries: seq<FormEntry>, name: string): (r: seq<FormEntry>)
    ensures forall i :: 0 <= i < |r| ==> r[i].name == name
  {
    if entries == [] then []
    else (if entries[0].name == name then [entries[0]] else []) + Named(entries[1..], name)
  }

  /** The entries not called `name`, in order. */
  function Others(entries: seq<FormEntry>, name: string): (r: seq<FormEntry>)
    ensures forall i :: 0 <= i < |r| ==> r[i].name != name
  {
    if entries == [] then []
    else (if entries[0].name != name then [entries[0]] else []) + Others(entries[1..], name)
  }

  /** `FormData.set` over the rest of the list, once the first entry with the
      name has (`placed`) or has not yet been replaced. */
  function SetFrom(entries: seq<FormEntry>, entry: FormEntry, placed: bool): (r: seq<FormEntry>)
    ensures Named(r, entry.name) == (if placed then [] else [entry])
    ensures Others(r, entry.name) == Others(entries, entry.name)
  {
    if entries == [] then (if placed then [] else [entry])
    else if entries[0].name == entry.name then
      var rest := SetFrom(entries[1..], entry, true);
      NamedOthersCons(entries[0], entries[1..], entry.name);
      NamedOthersCons(entry, rest, entry.name);
      assert [] + rest == rest;
      (if placed then [] else [entry]) + rest
    else
      var rest := SetFrom(entries[1..], entry, placed);
      NamedOthersCons(entries[0], entries[1..], entry.name);
      NamedOthersCons(entries[0], rest, entry.name);
      [entries[0]] + rest
  }

  /** How `Named` and `Others` split an entry placed in front. */
  lemma NamedOthersCons(head: FormEntry, rest: seq<FormEntry>, name: string)
    ensures Named([head] + rest, name) == (if head.name == name then [head] else []) + Named(rest, name)
    ensures Others([head] + rest, name) == (if head.name != name then [head] else []) + Others(rest, name)
  {
    assert ([head] + rest)[1..] == rest;
  }

  /** `formData.set(name, value, fileName)`: the first entry with the name is
      replaced and the others with it are removed, or the entry is appended.
      Afterwards the name has exactly the new entry, and the other entries are
      as they were, in the same order. */
  function SetEntries(entries: seq<FormEntry>, entry: FormEntry): (r: seq<FormEntry>)
    ensures Named(r, entry.name) == [entry]
    ensures Others(r, entry.name) == Others(entries, entry.name)
  {
    SetFrom(entries, entry, false)
  }

  /** With no entry of that name, `set` appends. */
  lemma {:induction false} SetAppendsWhenAbsent(entries: seq<FormEntry>, entry: FormEntry)
    requires Named(entries, entry.name) == []
    ensures SetEntries(entries, entry) == entries + [entry]
  {
    if entries != [] {
      NamedOthersCons(entries[0], entries[1..], entry.name);
      assert [entries[0]] + entries[1..] == entries;
      SetAppendsWhenAbsent(entries[1..], entry);
    }
  }

  /** The multipart form the client submits. */
  class FormData {
    var entries: seq<FormEntry>

    /** `new FormData()`. */
    constructor()
      ensures entries == []
    {
      entries := [];
    }

    /** `formData.set(name, value, fileName)`. */
    method Set(name: string, value: seq<Byte>, fileName: string)
      modifies this
      ensures entries == SetEntries(old(entries), FormEntry(name, value, fileName))
    {
      entries := SetEntries(entries, FormEntry(name, value, fileName));
    }
  }

  /** What reading a path that exists yields: its bytes, or the read error's message. */
  datatype FileState = Readable(bytes: seq<Byte>) | Unreadable(message: string)

  /** The files that exist, by path. */
  type FileSystem = map<string, FileState>

  /** `${error}` of an `Error`: its name, a colon and its message. */
  function ErrorText(message: string): string
  {
    "Error: " + message
  }

  function NotFoundMessage(path: string): string
  {
    "File not found: " + path
  }

  function ReadErrorMessage(key: string, cause: string): string
  {
    "Error reading " + key + " file: " + ErrorText(cause)
  }

  /** The outcome of `loadPDFFile(path, key, formData)`. */
  function LoadOutcome(path: string, key: string, fs: FileSystem): Outcome<string>
  {
    if path !in fs then Fail(NotFoundMessage(path))
    else match fs[path]
      case Unreadable(message) => Fail(ReadErrorMessage(key, message))
      case Readable(bytes) =>
        match ValidatePdf(bytes, key)
        case Fail(message) => Fail(ReadErrorMessage(key, message))
        case Pass => Pass
  }

  /** `loadPDFFile` succeeds exactly for an existing, readable file with the
      PDF header; a missing path is reported as not found (before any read),
      a read failure and a rejected header as an error reading the key's file,
      carrying the cause. */
  lemma LoadOutcomeCases(path: string, key: string, fs: FileSystem)
    ensures LoadOutcome(path, key, fs).Pass? <==>
            path in fs && fs[path].Readable? && ValidatePdf(fs[path].bytes, key).Pass?
    ensures path !in fs ==> LoadOutcome(path, key, fs) == Fail(NotFoundMessage(path))
    ensures path in fs && fs[path].Unreadable? ==>
            LoadOutcome(path, key, fs) == Fail(ReadErrorMessage(key, fs[path].message))
    ensures path in fs && fs[path].Readable? && LoadOutcome(path, key, fs).Fail? ==>
            LoadOutcome(path, key, fs) == Fail(ReadErrorMessage(key, NotPdfMessage(key)))
  {
  }

  /** Every failure after the existence check names the form key. */
  lemma ReadErrorNamesKey(key: string, cause: string)
    ensures StartsWith(ReadErrorMessage(key, cause), "Error reading " + key + " file: ")
  {
    var prefix := "Error reading " + key + " file: ";
    assert ReadErrorMessage(key, cause) == prefix + ErrorText(cause);
    assert (prefix + ErrorText(cause))[..|prefix|] == prefix;
  }

  /** `loadPDFFile(path, key, formData)` with `fs` the filesystem: on success
      the file is stored under the key with its base name as file name; on
      failure the form is untouched. */
  method LoadPdfFile(path: string, key: string, formData: FormData, fs: FileSystem) returns (outcome: Outcome<string>)
    modifies formData
    ensures outcome == LoadOutcome(path, key, fs)
    ensures outcome.Pass? ==>
      formData.entries == SetEntries(old(formData.entries), FormEntry(key, fs[path].bytes, Basename(path)))
    ensures outcome.Fail? ==> formData.entries == old(formData.entries)
  {
    if path !in fs {
      return Fail(NotFoundMessage(path));
    }
    var state := fs[path];
    if state.Unreadable? {
      return Fail(ReadErrorMessage(key, state.message));
    }
    var verdict := ValidatePdf(state.bytes, key);
    if verdict.Fail? {
      return Fail(ReadErrorMessage(key, verdict.error));
    }
    formData.Set(key, state.bytes, Basename(path));
    outcome := Pass;
  }
}
