/** `DocumentManager` of chat/chatwithdoc.py: load an uploaded file into the
    user's FAISS index (creating the index or adding to it), and answer a
    question for a user who has an index, keeping the user's conversation
    memory on disk. The file system is a `Disk` of named files; the document
    loaders, the text splitter and the LLM are parameters. */
module ChatWithDoc {
  import opened Wrappers
  import opened PyStr

  /** A LangChain `Document`. */
  datatype Document = Document(pageContent: string)

  /** A FAISS store, as the split documents it holds, in insertion order. */
  datatype VectorStore = VectorStore(documents: seq<Document>)

  /** A `ConversationBufferMemory`. */
  datatype Memory = Memory(memoryKey: string, returnMessages: bool, messages: seq<string>)

  const FreshMemory: Memory := Memory("chat_history", true, [])

  /** What a path holds: a pickled memory file, or a saved index folder. */
  datatype Blob = MemoryFile(memory: Memory) | IndexFolder(store: VectorStore)

  /** The file system: the object at each existing path. */
  class Disk {
    var files: map<string, Blob>

    constructor (files: map<string, Blob>)
      ensures this.files == files
    {
      this.files := files;
    }
  }

  function MemoryPath(userId: string): string { userId + "_memory.pkl" }

  function IndexPath(userId: string): string { "faiss_index_" + userId }

  /** A user's memory file and index folder are different paths. */
  lemma PathsDiffer(userId: string)
    ensures MemoryPath(userId) != IndexPath(userId)
  {
    assert |MemoryPath(userId)| != |IndexPath(userId)|;
  }

  // ----- Loading documents -----

  datatype LoaderKind = PdfLoader | WordLoader | FileLoader

  /** The foreign pieces: a LangChain loader on the file's bytes, the sheets of a
      workbook rendered with `to_string` (in sheet order), a CSV file rendered
      the same way, and the text splitter. */
  datatype Loaders = Loaders(load: (LoaderKind, seq<Byte>) -> seq<Document>,
                             sheets: seq<Byte> -> seq<string>,
                             csv: seq<Byte> -> string,
                             split: seq<Document> -> seq<Document>)

  const Extensions: set<string> := {".pdf", ".docx", ".txt", ".md", ".xlsx", ".csv"}

  /** The documents `_load_documents` produces, by the lower-cased extension. */
  function DocumentsFor(fileBytes: seq<Byte>, fileExtension: string, loaders: Loaders): (r: Result<seq<Document>>)
    ensures r.Err? <==> Lower(fileExtension) !in Extensions
    ensures r.Err? ==> r.error == ValueError("Unsupported file type: " + Lower(fileExtension))
    ensures Lower(fileExtension) == ".xlsx" ==>
              var sheets := loaders.sheets(fileBytes);
              |r.value| == |sheets| && forall i :: 0 <= i < |sheets| ==> r.value[i] == Document(sheets[i])
    ensures Lower(fileExtension) == ".csv" ==> r.value == [Document(loaders.csv(fileBytes))]
    ensures Lower(fileExtension) == ".pdf" ==> r.value == loaders.load(PdfLoader, fileBytes)
    ensures Lower(fileExtension) == ".docx" ==> r.value == loaders.load(WordLoader, fileBytes)
    ensures Lower(fileExtension) in {".txt", ".md"} ==> r.value == loaders.load(FileLoader, fileBytes)
  {
    var ext := Lower(fileExtension);
    if ext == ".pdf" then Ok(loaders.load(PdfLoader, fileBytes))
    else if ext == ".docx" then Ok(loaders.load(WordLoader, fileBytes))
    else if ext in {".txt", ".md"} then Ok(loaders.load(FileLoader, fileBytes))
    else if ext == ".xlsx" then
      var sheets := loaders.sheets(fileBytes);
      Ok(seq(|sheets|, i requires 0 <= i < |sheets| => Document(sheets[i])))
    else if ext == ".csv" then Ok([Document(loaders.csv(fileBytes))])
    else Err(ValueError("Unsupported file type: " + ext))
  }

  /** The extension is compared case-insensitively. */
  lemma ExtensionCaseInsensitive(fileBytes: seq<Byte>, e1: string, e2: string, loaders: Loaders)
    requires Lower(e1) == Lower(e2)
    ensures DocumentsFor(fileBytes, e1, loaders) == DocumentsFor(fileBytes, e2, loaders)
  {
  }

  // ----- What the disk operations do to the files -----

  /** `_load_memory`: the pickled memory, or a fresh empty one when there is no
      file; a folder at that path cannot be opened. */
  function MemoryIn(files: map<string, Blob>, userId: string): (r: Result<Memory>)
    ensures MemoryPath(userId) !in files ==> r == Ok(FreshMemory)
    ensures MemoryPath(userId) in files && files[MemoryPath(userId)].MemoryFile? ==>
              r == Ok(files[MemoryPath(userId)].memory)
    ensures MemoryPath(userId) in files && files[MemoryPath(userId)].IndexFolder? ==>
              r == Err(OSError(MemoryPath(userId)))
  {
    var path := MemoryPath(userId);
    if path !in files then Ok(FreshMemory)
    else match files[path]
      case MemoryFile(m) => Ok(m)
      case IndexFolder(_) => Err(OSError(path))
  }

  /** `_save_memory`: write the memory file, unless a folder is in the way. */
  function WithMemory(files: map<string, Blob>, memory: Memory, userId: string): (r: (Result<()>, map<string, Blob>))
    ensures r.0.Ok? ==> r.1 == files[MemoryPath(userId) := MemoryFile(memory)]
    ensures r.0.Err? ==> r.1 == files
  {
    var path := MemoryPath(userId);
    if path in files && files[path].IndexFolder? then (Err(OSError(path)), files)
    else (Ok(()), files[path := MemoryFile(memory)])
  }

  /** `_get_vectorstore`: the saved store, or None when the folder is absent; a
      memory file at that path cannot be loaded as an index. */
  function StoreIn(files: map<string, Blob>, userId: string): (r: Result<Option<VectorStore>>)
    ensures IndexPath(userId) !in files ==> r == Ok(None)
    ensures IndexPath(userId) in files && files[IndexPath(userId)].IndexFolder? ==>
              r == Ok(Some(files[IndexPath(userId)].store))
    ensures IndexPath(userId) in files && files[IndexPath(userId)].MemoryFile? ==>
              r == Err(OSError(IndexPath(userId)))
  {
    var path := IndexPath(userId);
    if path !in files then Ok(None)
    else match files[path]
      case IndexFolder(s) => Ok(Some(s))
      case MemoryFile(_) => Err(OSError(path))
  }

  /** `_save_vectorstore`: create the folder (a file in the way makes `makedirs`
      fail) and save the store into it. */
  function WithStore(files: map<string, Blob>, store: VectorStore, userId: string): (r: (Result<()>, map<string, Blob>))
    ensures r.0.Ok? ==> r.1 == files[IndexPath(userId) := IndexFolder(store)]
    ensures r.0.Err? ==> r.1 == files
  {
    var path := IndexPath(userId);
    if path in files && files[path].MemoryFile? then (Err(OSError(path)), files)
    else (Ok(()), files[path := IndexFolder(store)])
  }

  /** What is saved is what is loaded back: both operations use the same path. */
  lemma MemoryRoundTrip(files: map<string, Blob>, memory: Memory, userId: string)
    requires WithMemory(files, memory, userId).0.Ok?
    ensures MemoryIn(WithMemory(files, memory, userId).1, userId) == Ok(memory)
  {
  }

  lemma StoreRoundTrip(files: map<string, Blob>, store: VectorStore, userId: string)
    requires WithStore(files, store, userId).0.Ok?
    ensures StoreIn(WithStore(files, store, userId).1, userId) == Ok(Some(store))
  {
  }

  // ----- The two public operations, as functions of the files -----

  /** `load_documents_to_faiss`: the store it returns and the files afterwards.
      The index is looked up first, then the documents are loaded and split;
      the store is new or extended, and saved. */
  function LoadToFaiss(files: map<string, Blob>, fileBytes: seq<Byte>, fileExtension: string, userId: string,
                       loaders: Loaders): (Result<VectorStore>, map<string, Blob>)
  {
    match StoreIn(files, userId)
    case Err(e) => (Err(e), files)
    case Ok(existing) =>
      match DocumentsFor(fileBytes, fileExtension, loaders)
      case Err(e) => (Err(e), files)
      case Ok(documents) =>
        var splits := loaders.split(documents);
        var store := match existing
                     case None => VectorStore(splits)
                     case Some(s) => VectorStore(s.documents + splits);
        var (saved, files') := WithStore(files, store, userId);
        match saved
        case Err(e) => (Err(e), files)
        case Ok(_) => (Ok(store), files')
  }

  function QueryPrompt(query: string): string {
    "Answer the following question based on the document: " + query
  }

  /** `query_documents`: the answer and the files afterwards; `answer` is the
      gpt-4o-mini call. */
  function Query(files: map<string, Blob>, query: string, userId: string, apiKey: string,
                 answer: (string, string) -> string): (Result<string>, map<string, Blob>)
  {
    match StoreIn(files, userId)
    case Err(e) => (Err(e), files)
    case Ok(None) => (Err(ValueError("No FAISS index found for user ID: " + userId)), files)
    case Ok(Some(_)) =>
      match MemoryIn(files, userId)
      case Err(e) => (Err(e), files)
      case Ok(memory) =>
        var result := answer(QueryPrompt(query), apiKey);
        var (saved, files') := WithMemory(files, memory, userId);
        match saved
        case Err(e) => (Err(e), files)
        case Ok(_) => (Ok(result), files')
  }

  /** A failed load leaves the files as they were; a successful one saves the
      new store, which is the existing documents (none for a new index)
      followed by the new splits, and changes nothing else. */
  lemma LoadToFaissOutcome(files: map<string, Blob>, fileBytes: seq<Byte>, fileExtension: string,
                           userId: string, loaders: Loaders)
    ensures var (r, files') := LoadToFaiss(files, fileBytes, fileExtension, userId, loaders);
            (r.Err? ==> files' == files)
            && (r.Ok? ==>
                  var previous := if IndexPath(userId) in files then files[IndexPath(userId)].store.documents else [];
                  r.value.documents == previous + loaders.split(DocumentsFor(fileBytes, fileExtension, loaders).value)
                  && files' == files[IndexPath(userId) := IndexFolder(r.value)])
  {
  }

  /** An unsupported extension raises its ValueError before anything is saved
      (when the index path holds an index or nothing). */
  lemma UnsupportedExtensionChangesNothing(files: map<string, Blob>, fileBytes: seq<Byte>, fileExtension: string,
                                           userId: string, loaders: Loaders)
    requires Lower(fileExtension) !in Extensions
    requires IndexPath(userId) in files ==> files[IndexPath(userId)].IndexFolder?
    ensures LoadToFaiss(files, fileBytes, fileExtension, userId, loaders)
            == (Err(ValueError("Unsupported file type: " + Lower(fileExtension))), files)
  {
  }

  /** Without an index the query fails and nothing is written. With one, the
      answer depends only on the query and the key, and the memory is written
      back as it was read: an existing memory file is left as it is, and a
      missing one becomes a fresh empty memory. */
  lemma QueryOutcome(files: map<string, Blob>, query: string, userId: string, apiKey: string,
                     answer: (string, string) -> string)
    ensures IndexPath(userId) !in files ==>
              Query(files, query, userId, apiKey, answer)
              == (Err(ValueError("No FAISS index found for user ID: " + userId)), files)
    ensures var (r, files') := Query(files, query, userId, apiKey, answer);
            r.Ok? ==> r.value == answer(QueryPrompt(query), apiKey)
                      && (MemoryPath(userId) in files ==> files' == files)
                      && (MemoryPath(userId) !in files ==> files' == files[MemoryPath(userId) := MemoryFile(FreshMemory)])
  {
    var (r, files') := Query(files, query, userId, apiKey, answer);
    if r.Ok? && MemoryPath(userId) in files {
      assert files[MemoryPath(userId)].MemoryFile?;
      assert files' == files[MemoryPath(userId) := files[MemoryPath(userId)]];
    }
  }

  // ----- The manager over the disk -----

  class DocumentManager {
    const disk: Disk

    constructor (disk: Disk)
      ensures this.disk == disk
    {
      this.disk := disk;
    }

    method LoadMemory(userId: string) returns (r: Result<Memory>)
      ensures r == MemoryIn(disk.files, userId)
    {
      var path := MemoryPath(userId);
      if path !in disk.files {
        r := Ok(FreshMemory);
      } else if disk.files[path].MemoryFile? {
        r := Ok(disk.files[path].memory);
      } else {
        r := Err(OSError(path));
      }
    }

    method SaveMemory(memory: Memory, userId: string) returns (r: Result<()>)
      modifies disk
      ensures (r, disk.files) == WithMemory(old(disk.files), memory, userId)
    {
      var path := MemoryPath(userId);
      if path in disk.files && disk.files[path].IndexFolder? {
        r := Err(OSError(path));
      } else {
        disk.files := disk.files[path := MemoryFile(memory)];
        r := Ok(());
      }
    }

    method GetVectorstore(userId: string) returns (r: Result<Option<VectorStore>>)
      ensures r == StoreIn(disk.files, userId)
    {
      var path := IndexPath(userId);
      if path !in disk.files {
        r := Ok(None);
      } else if disk.files[path].IndexFolder? {
        r := Ok(Some(disk.files[path].store));
      } else {
        r := Err(OSError(path));
      }
    }

    method SaveVectorstore(store: VectorStore, userId: string) returns (r: Result<()>)
      modifies disk
      ensures (r, disk.files) == WithStore(old(disk.files), store, userId)
    {
      var path := IndexPath(userId);
      if path in disk.files && disk.files[path].MemoryFile? {
        r := Err(OSError(path));
      } else {
        disk.files := disk.files[path := IndexFolder(store)];
        r := Ok(());
      }
    }

    /** `_load_documents`; a workbook is read sheet by sheet, one document each. */
    method LoadDocuments(fileBytes: seq<Byte>, fileExtension: string, loaders: Loaders)
      returns (r: Result<seq<Document>>)
      ensures r == DocumentsFor(fileBytes, fileExtension, loaders)
    {
      var ext := Lower(fileExtension);
      var documents: seq<Document> := [];
      if ext == ".pdf" {
        documents := loaders.load(PdfLoader, fileBytes);
      } else if ext == ".docx" {
        documents := loaders.load(WordLoader, fileBytes);
      } else if ext in {".txt", ".md"} {
        documents := loaders.load(FileLoader, fileBytes);
      } else if ext == ".xlsx" {
        var sheets := loaders.sheets(fileBytes);
        var i := 0;
        while i < |sheets|
          invariant 0 <= i <= |sheets|
          invariant |documents| == i
          invariant forall k :: 0 <= k < i ==> documents[k] == Document(sheets[k])
        {
          documents := documents + [Document(sheets[i])];
          i := i + 1;
        }
        assert documents == DocumentsFor(fileBytes, fileExtension, loaders).value;
      } else if ext == ".csv" {
        documents := documents + [Document(loaders.csv(fileBytes))];
        assert documents == [Document(loaders.csv(fileBytes))];
      } else {
        return Err(ValueError("Unsupported file type: " + ext));
      }
      r := Ok(documents);
    }

    /** `load_documents_to_faiss`. */
    method LoadDocumentsToFaiss(fileBytes: seq<Byte>, fileExtension: string, userId: string, loaders: Loaders)
      returns (r: Result<VectorStore>)
      modifies disk
      ensures (r, disk.files) == LoadToFaiss(old(disk.files), fileBytes, fileExtension, userId, loaders)
    {
      var existing := GetVectorstore(userId);
      if existing.Err? {
        return Err(existing.error);
      }
      var documents := LoadDocuments(fileBytes, fileExtension, loaders);
      if documents.Err? {
        return Err(documents.error);
      }
      var splits := loaders.split(documents.value);
      var store := if existing.value.None? then VectorStore(splits)
                   else VectorStore(existing.value.value.documents + splits);
      var saved := SaveVectorstore(store, userId);
      // the successful load shows no memory file sits at the index path
      assert saved.Ok?;
      r := Ok(store);
    }

    /** `query_documents`. */
    method QueryDocuments(query: string, userId: string, apiKey: string, answer: (string, string) -> string)
      returns (r: Result<string>)
      modifies disk
      ensures (r, disk.files) == Query(old(disk.files), query, userId, apiKey, answer)
    {
      var existing := GetVectorstore(userId);
      if existing.Err? {
        return Err(existing.error);
      }
      if existing.value.None? {
        return Err(ValueError("No FAISS index found for user ID: " + userId));
      }
      var memory := LoadMemory(userId);
      if memory.Err? {
        return Err(memory.error);
      }
      var result := answer(QueryPrompt(query), apiKey);
      var saved := SaveMemory(memory.value, userId);
      if saved.Err? {
        return Err(saved.error);
      }
      r := Ok(result);
    }
  }
}
