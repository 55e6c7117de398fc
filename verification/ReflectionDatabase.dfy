/** A client-side database of file descriptors that asks a reflection server only for what it lacks. */
module ReflectionDatabase {

  datatype Option<+T> = None | Some(value: T)

  /** An extension is a containing type and a field number. */
  type Extension = (string, int)

  /** A file descriptor, with the symbols and extensions it declares. */
  datatype File = File(name: string, symbols: set<string>, extensions: set<Extension>, text: string)

  datatype Request = ByName(name: string) | BySymbol(symbol: string) | ByExtension(extension: Extension)

  predicate Matches(f: File, r: Request) {
    match r
    case ByName(name) => f.name == name
    case BySymbol(symbol) => symbol in f.symbols
    case ByExtension(e) => e in f.extensions
  }

  // ------------------------------------------------------------------ the server

  /** Names, symbols and extensions are declared once. */
  ghost predicate Consistent(files: set<File>) {
    forall f, g, r: Request :: f in files && g in files && Matches(f, r) && Matches(g, r) ==> f == g
  }

  /** What the server would answer if asked directly. */
  ghost function Answer(files: set<File>, r: Request): Option<File> {
    if f :| f in files && Matches(f, r) then Some(f) else None
  }

  const NOT_FOUND := 5

  /** What a request brings back: nothing, because the stream failed, or a response of some type. */
  datatype Reply = Failed | Files(files: seq<File>) | Error(code: int) | Unexpected

  /** The server answers truthfully, but may leave out files that it has sent on this stream before. */
  ghost predicate Honest(files: set<File>, sent: set<string>, r: Request, reply: Reply) {
    match reply
    case Files(fs) =>
      && (forall f :: f in fs ==> f in files)
      && exists f :: f in files && Matches(f, r) && (f in fs || f.name in sent)
    case Error(code) => code == NOT_FOUND ==> Answer(files, r) == None
    case _ => true
  }

  /** The files in a reply. */
  function Brought(reply: Reply): set<File> {
    if reply.Files? then set f | f in reply.files else {}
  }

  /** A reply that settles the request. */
  predicate Delivered(reply: Reply) {
    reply.Files? || reply == Error(NOT_FOUND)
  }

  // ------------------------------------------------------------------ the cache

  /** The index of cached files. */
  datatype Index = Index(byName: map<string, File>, bySymbol: map<string, File>, byExtension: map<Extension, File>)

  function Find(ix: Index, r: Request): Option<File> {
    match r
    case ByName(name) => if name in ix.byName then Some(ix.byName[name]) else None
    case BySymbol(symbol) => if symbol in ix.bySymbol then Some(ix.bySymbol[symbol]) else None
    case ByExtension(e) => if e in ix.byExtension then Some(ix.byExtension[e]) else None
  }

  function Add(ix: Index, f: File): Index {
    Index(ix.byName[f.name := f],
          ix.bySymbol + map s | s in f.symbols :: f,
          ix.byExtension + map e | e in f.extensions :: f)
  }

  /** The index finds exactly what the files in it declare. */
  ghost predicate Indexes(ix: Index, files: set<File>) {
    forall r: Request :: Find(ix, r) == Answer(files, r)
  }

  lemma AnswerIs(files: set<File>, r: Request, f: File)
    requires Consistent(files) && f in files && Matches(f, r)
    ensures Answer(files, r) == Some(f)
  {
    var g :| g in files && Matches(g, r) && Answer(files, r) == Some(g);
    assert Matches(f, r) && Matches(g, r);
  }

  lemma AnswerOfSubset(some: set<File>, files: set<File>, r: Request)
    requires Consistent(files) && some <= files
    ensures Consistent(some)
    ensures Answer(some, r).Some? ==> Answer(files, r) == Answer(some, r)
  {
    if f :| f in some && Matches(f, r) {
      AnswerIs(files, r, f);
      AnswerIs(some, r, f);
    }
  }

  lemma AddIndexes(ix: Index, files: set<File>, f: File)
    requires Consistent(files + {f}) && Indexes(ix, files)
    ensures Indexes(Add(ix, f), files + {f})
  {
    forall r: Request ensures Find(Add(ix, f), r) == Answer(files + {f}, r) {
      assert Find(ix, r) == Answer(files, r);
      AnswerOfSubset(files, files + {f}, r);
      if Matches(f, r) {
        AnswerIs(files + {f}, r, f);
      }
    }
  }

  function Names(files: set<File>): set<string> {
    set f | f in files :: f.name
  }

  /** One request that was sent, and whether its reply settles it for good. */
  datatype Asked = Asked(request: Request, learned: bool)

  /** A request is sent again only if no earlier reply settled it. */
  ghost predicate Economical(log: seq<Asked>) {
    forall i, j :: 0 <= i < j < |log| && log[i].request == log[j].request ==> !log[i].learned
  }

  class Database {
    var cachedDb: Index
    var knownFiles: set<string>
    var missingSymbols: set<string>
    var missingExtensions: map<string, set<int>>

    /** The files received so far, the names sent to us on this stream, whether the stream has failed,
        and the requests made. */
    ghost var received: set<File>
    ghost var sent: set<string>
    ghost var broken: bool
    ghost var log: seq<Asked>

    /** Known without asking: the answer is cached, or recorded as missing. */
    ghost predicate Settled(r: Request)
      reads this
    {
      || Find(cachedDb, r).Some?
      || (r.ByName? && r.name in knownFiles)
      || (r.BySymbol? && r.symbol in missingSymbols)
      || (r.ByExtension? && r.extension.0 in missingExtensions && r.extension.1 in missingExtensions[r.extension.0])
    }

    /** The cache is the set of files received, and only what the server lacks is recorded as missing. */
    ghost predicate Valid(files: set<File>)
      reads this
    {
      && Consistent(files) && received <= files
      && Indexes(cachedDb, received)
      && knownFiles == Names(received)
      && (!broken ==> sent <= knownFiles)
      && (forall symbol :: symbol in missingSymbols ==> Answer(files, BySymbol(symbol)) == None)
      && (forall t, n :: t in missingExtensions && n in missingExtensions[t] ==>
            Answer(files, ByExtension((t, n))) == None)
      && Economical(log)
      && (forall k :: 0 <= k < |log| && log[k].learned ==> Settled(log[k].request))
    }

    /** Replies the environment can produce: a failed stream stays failed. */
    ghost predicate Possible(files: set<File>, r: Request, reply: Reply)
      reads this
    {
      Honest(files, sent, r, reply) && (broken ==> reply.Failed?)
    }

    constructor (ghost files: set<File>)
      requires Consistent(files)
      ensures Valid(files) && !broken && sent == {} && log == []
    {
      cachedDb := Index(map[], map[], map[]);
      knownFiles, missingSymbols, missingExtensions := {}, {}, map[];
      received, sent, broken, log := {}, {}, false, [];
    }

    /** Caches every file of a response that is not known yet. */
    method AddFileFromResponse(files: seq<File>, ghost all: set<File>)
      requires Consistent(all) && received <= all && forall f :: f in files ==> f in all
      requires Indexes(cachedDb, received) && knownFiles == Names(received)
      modifies this`cachedDb, this`knownFiles, this`received
      ensures received == old(received) + set f | f in files
      ensures Indexes(cachedDb, received) && knownFiles == Names(received)
    {
      for i := 0 to |files|
        invariant received == old(received) + set f | f in files[..i]
        invariant received <= all && Indexes(cachedDb, received) && knownFiles == Names(received)
      {
        var file := files[i];
        assert files[..i + 1] == files[..i] + [file];
        if file.name !in knownFiles {
          knownFiles := knownFiles + {file.name};
          AnswerOfSubset(received + {file}, all, ByName(file.name));
          AddIndexes(cachedDb, received, file);
          cachedDb := Add(cachedDb, file);
          received := received + {file};
        } else {
          KnownByName(received, all, file);
        }
      }
      assert files[..|files|] == files;
    }

    /** One exchange on the stream. It works only on a stream that has never failed, and then the file asked
        for is at hand if the server has it: in the response, or received before. */
    method DoOneRequest(r: Request, reply: Reply, ghost files: set<File>) returns (success: bool)
      requires Valid(files) && Possible(files, r, reply) && !Settled(r)
      modifies this`sent, this`broken, this`log
      ensures success ==> !old(broken)
      ensures broken == !success
      ensures success ==> sent <= knownFiles + Names(Brought(reply))
      ensures success && reply.Files? ==> exists f :: f in received + Brought(reply) && Matches(f, r)
      ensures success && reply == Error(NOT_FOUND) ==> Answer(files, r) == None
      ensures log == old(log) + [Asked(r, if r.ByName? then reply.Files? else Delivered(reply))]
      ensures success == !reply.Failed? && Economical(log)
    {
      if reply.Files? && !broken {
        var f :| f in files && Matches(f, r) && (f in reply.files || f.name in sent);
        if f !in reply.files {
          KnownByName(received, files, f);
        }
      }
      sent := sent + Names(Brought(reply));
      broken := broken || reply.Failed?;
      log := log + [Asked(r, if r.ByName? then reply.Files? else Delivered(reply))];
      success := !reply.Failed?;
    }

    /** The part common to the three lookups, once the cache has failed to answer: ask, and cache what
        comes back. */
    method Ask(r: Request, reply: Reply, ghost files: set<File>) returns (success: bool)
      requires Valid(files) && Possible(files, r, reply) && !Settled(r)
      modifies this`sent, this`broken, this`log, this`cachedDb, this`knownFiles, this`received
      ensures success == !reply.Failed?
      ensures Consistent(files) && received <= files && Indexes(cachedDb, received) && knownFiles == Names(received)
      ensures !broken ==> sent <= knownFiles
      ensures log == old(log) + [Asked(r, if r.ByName? then reply.Files? else Delivered(reply))]
      ensures Economical(log)
      ensures forall k :: 0 <= k < |old(log)| && old(log)[k].learned ==> Settled(old(log)[k].request)
      ensures reply.Files? ==> Answer(files, r).Some? && Find(cachedDb, r) == Answer(files, r)
      ensures !reply.Files? ==> Find(cachedDb, r) == None
    {
      ghost var received0, known0, cached0 := received, knownFiles, cachedDb;
      success := DoOneRequest(r, reply, files);
      if reply.Files? {
        AddFileFromResponse(reply.files, files);
        TargetReceived(files, received0, received, r, reply);
        FoundStaysFound(files, received0, received, cached0, cachedDb);
      }
    }

    method FindFileByName(filename: string, reply: Reply, ghost files: set<File>) returns (output: Option<File>)
      requires Valid(files) && Possible(files, ByName(filename), reply)
      modifies this
      ensures Valid(files)
      ensures output.Some? || old(Settled(ByName(filename))) || Delivered(reply) ==>
        output == Answer(files, ByName(filename))
      ensures log == old(log) + if old(Settled(ByName(filename))) then [] else [Asked(ByName(filename), reply.Files?)]
    {
      CachedIsAnswer(files, received, cachedDb, ByName(filename));
      output := Find(cachedDb, ByName(filename));
      if output.Some? {
        return;
      }
      if filename in knownFiles {
        KnownIsCached(files, received, cachedDb, filename);
        return None;
      }
      var success := Ask(ByName(filename), reply, files);
      if !success {
        return None;
      }
      output := Find(cachedDb, ByName(filename));
    }

    method FindFileContainingSymbol(symbol: string, reply: Reply, ghost files: set<File>) returns (output: Option<File>)
      requires Valid(files) && Possible(files, BySymbol(symbol), reply)
      modifies this
      ensures Valid(files)
      ensures output.Some? || old(Settled(BySymbol(symbol))) || Delivered(reply) ==>
        output == Answer(files, BySymbol(symbol))
      ensures log == old(log) +
                     if old(Settled(BySymbol(symbol))) then [] else [Asked(BySymbol(symbol), Delivered(reply))]
    {
      CachedIsAnswer(files, received, cachedDb, BySymbol(symbol));
      output := Find(cachedDb, BySymbol(symbol));
      if output.Some? {
        return;
      }
      if symbol in missingSymbols {
        return None;
      }
      var success := Ask(BySymbol(symbol), reply, files);
      if !success {
        return None;
      }
      if reply == Error(NOT_FOUND) {
        missingSymbols := missingSymbols + {symbol};
      }
      output := Find(cachedDb, BySymbol(symbol));
    }

    method FindFileContainingExtension(containingType: string, number: int, reply: Reply, ghost files: set<File>)
      returns (output: Option<File>)
      requires Valid(files) && Possible(files, ByExtension((containingType, number)), reply)
      modifies this
      ensures Valid(files)
      ensures var r := ByExtension((containingType, number));
        && (output.Some? || old(Settled(r)) || Delivered(reply) ==> output == Answer(files, r))
        && log == old(log) + if old(Settled(r)) then [] else [Asked(r, Delivered(reply))]
    {
      var r := ByExtension((containingType, number));
      CachedIsAnswer(files, received, cachedDb, r);
      output := Find(cachedDb, r);
      if output.Some? {
        return;
      }
      if containingType in missingExtensions && number in missingExtensions[containingType] {
        return None;
      }
      var success := Ask(r, reply, files);
      if !success {
        return None;
      }
      if reply == Error(NOT_FOUND) {
        if containingType !in missingExtensions {
          missingExtensions := missingExtensions[containingType := {}];
        }
        missingExtensions := missingExtensions[containingType := missingExtensions[containingType] + {number}];
      }
      output := Find(cachedDb, r);
    }
  }

  /** What the cache finds is what the server would answer. */
  lemma CachedIsAnswer(files: set<File>, received: set<File>, ix: Index, r: Request)
    requires Consistent(files) && received <= files && Indexes(ix, received)
    ensures Find(ix, r).Some? ==> Find(ix, r) == Answer(files, r)
  {
    AnswerOfSubset(received, files, r);
  }

  lemma KnownIsCached(files: set<File>, received: set<File>, ix: Index, name: string)
    requires Consistent(files) && received <= files && Indexes(ix, received) && name in Names(received)
    ensures Find(ix, ByName(name)) == Answer(files, ByName(name))
  {
    AnswerOfSubset(received, files, ByName(name));
    var f :| f in received && f.name == name;
    AnswerIs(received, ByName(name), f);
  }

  /** A truthful response leaves the requested file in the cache: either it brought it, or it had been
      sent before, and everything sent before was cached. */
  lemma TargetReceived(files: set<File>, before: set<File>, after: set<File>, r: Request, reply: Reply)
    requires Consistent(files) && before <= files && after <= files && reply.Files?
    requires Honest(files, Names(before), r, reply) && after == before + set f | f in reply.files
    ensures Answer(after, r).Some? && Answer(after, r) == Answer(files, r)
  {
    var f :| f in files && Matches(f, r) && (f in reply.files || f.name in Names(before));
    if f !in reply.files {
      KnownByName(before, files, f);
    }
    AnswerOfSubset(after, files, r);
    AnswerIs(after, r, f);
  }

  /** Receiving more files loses no answer. */
  lemma FoundStaysFound(files: set<File>, before: set<File>, after: set<File>, ix: Index, ix': Index)
    requires Consistent(files) && before <= after <= files && Indexes(ix, before) && Indexes(ix', after)
    ensures forall r: Request :: Find(ix, r).Some? ==> Find(ix', r).Some?
  {
    forall r: Request | Find(ix, r).Some? ensures Find(ix', r).Some? {
      var f :| f in before && Matches(f, r);
      AnswerOfSubset(after, files, r);
      AnswerIs(after, r, f);
    }
  }

  lemma KnownByName(received: set<File>, all: set<File>, file: File)
    requires Consistent(all) && received <= all && file in all && file.name in Names(received)
    ensures file in received
  {
    var f :| f in received && f.name == file.name;
    assert Matches(f, ByName(file.name)) && Matches(file, ByName(file.name));
  }
}
