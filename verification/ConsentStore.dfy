/** The compare-and-swap save of the consent document against foreign writers,
    ambiguous writes and crashes. One history records what each process read and
    wrote; `Safe` says what may follow what. */
module ConsentStore {
  import opened Basics
  import opened Histories
  import opened ConsentDocument

  // A file is absent, holds an encoded document, or holds bytes no document encodes to.
  datatype File = Absent | Encoded(doc: Document) | Garbage(id: int)

  function Decode(f: File): Option<Document> {
    if f.Encoded? && Accepted(f.doc) then Some(f.doc) else None
  }

  datatype Event =
    | Started                              // a new process
    | ReadImage(file: File)
    | OwnWrite(before: File, after: File)  // bytes this process put on the disk
    | ForeignWrite(file: File)             // a restore, an update, another process
    | Latched                              // a save or a comparison failed

  // It begins with the file as it is.
  type History = Trace<File, Event>

  // `known` is the image this process last read or wrote.
  datatype Summary = Summary(file: File, known: Option<File>, latched: bool)

  function Next(s: Summary, e: Event): Summary {
    match e
    case Started => s.(known := None, latched := false)
    case ReadImage(file) => s.(known := Some(file))
    case OwnWrite(_, after) => s.(file := after, known := Some(after))
    case ForeignWrite(file) => s.(file := file)
    case Latched => s.(latched := true)
  }

  function Summarize(h: History): Summary {
    match h
    case Start(file) => Summary(file, None, false)
    case After(past, e) => Next(Summarize(past), e)
  }

  ghost predicate StepOK(s: Summary, e: Event) {
    match e
    case ReadImage(file) => file == s.file
    case OwnWrite(before, after) => !s.latched && s.known == Some(before) && s.file == before && Decode(after).Some?
    case _ => true
  }

  ghost predicate May(p: History, e: Event) {
    StepOK(Summarize(p), e)
  }

  ghost predicate Safe(h: History) {
    Permitted(May, h)
  }

  lemma SafeUpTo(p: History, h: History)
    requires Safe(h) && IsPrefix(p, h)
    ensures Safe(p)
  {
    PermittedUpTo(May, p, h);
  }

  // ---- guarantees over whole histories ----

  function Starts(): Event -> bool {
    (e: Event) => e.Started?
  }

  function Learns(): Event -> bool {
    (e: Event) => e.ReadImage? || e.OwnWrite?
  }

  function Writes(): Event -> bool {
    (e: Event) => e.OwnWrite? || e.ForeignWrite?
  }

  function Foreigners(): Event -> bool {
    (e: Event) => e.ForeignWrite?
  }

  lemma {:induction false} LatchPersists(first: History, last: History)
    requires IsPrefix(first, last) && Summarize(first).latched
    ensures Summarize(last).latched || Between(first, last, Starts())
  {
    if first != last {
      LatchPersists(first, last.past);
    }
  }

  /** After a failed save or comparison this process never writes again. */
  lemma NoWriteAfterLatch(p: History, q: History, before: File, after: File, h: History)
    requires Safe(h)
    requires IsPrefix(After(p, Latched), q) && IsPrefix(After(q, OwnWrite(before, after)), h)
    ensures Between(After(p, Latched), q, Starts())
  {
    SafeUpTo(After(q, OwnWrite(before, after)), h);
    LatchPersists(After(p, Latched), q);
  }

  lemma {:induction false} FilePersists(first: History, last: History)
    requires IsPrefix(first, last) && !Between(first, last, Writes())
    ensures Summarize(last).file == Summarize(first).file
  {
    if first != last {
      FilePersists(first, last.past);
    }
  }

  lemma {:induction false} KnownPersists(first: History, last: History)
    requires IsPrefix(first, last) && !Between(first, last, Learns()) && !Between(first, last, Starts())
    ensures Summarize(last).known == Summarize(first).known
  {
    if first != last {
      KnownPersists(first, last.past);
    }
  }

  /** No foreign write is ever overwritten unseen: if this process writes next, it
      has read or written exactly those bytes itself. */
  lemma NoForeignWriteIsLost(p: History, foreign: File, q: History, before: File, after: File, h: History)
    requires Safe(h)
    requires IsPrefix(After(p, ForeignWrite(foreign)), q) && IsPrefix(After(q, OwnWrite(before, after)), h)
    requires !Between(After(p, ForeignWrite(foreign)), q, Writes())
    ensures before == foreign
    ensures Between(After(p, ForeignWrite(foreign)), q, Learns()) ||
        Between(After(p, ForeignWrite(foreign)), q, Starts())
            || Summarize(p).known == Some(foreign)
  {
    var first := After(p, ForeignWrite(foreign));
    SafeUpTo(After(q, OwnWrite(before, after)), h);
    FilePersists(first, q);
    if !Between(first, q, Learns()) && !Between(first, q, Starts()) {
      KnownPersists(first, q);
    }
  }

  /** Without foreign writers a file that was absent or acceptable stays so, whatever
      crash cut the process short. */
  lemma {:induction false} OwnBytesDecode(start: File, h: History)
    requires Safe(h) && IsPrefix(Start(start), h) && !Between(Start(start), h, Foreigners())
    requires start.Absent? || Decode(start).Some?
    ensures Summarize(h).file.Absent? || (Summarize(h).file.Encoded? && Accepted(Summarize(h).file.doc))
  {
    if h.After? {
      OwnBytesDecode(start, h.past);
    }
  }

  // ---- one process ----

  class State {
    var file: File          // the disk cell
    var loaded: bool
    var blocked: bool
    var image: File
    var doc: Document
    ghost var history: History

    ghost predicate Valid()
      reads this
    {
      && Safe(history)
      && Summarize(history).file == file
      && Summarize(history).latched == blocked
      && (loaded && !blocked ==> Summarize(history).known == Some(image))
    }

    /** A process starts over whatever is on the disk. */
    constructor (ghost past: History, cell: File, empty: Document)
      requires Safe(past) && Summarize(past).file == cell
      ensures Valid() && !loaded && !blocked && file == cell
    {
      file, loaded, blocked, image, doc := cell, false, false, Absent, empty;
      history := After(past, Started);
    }

    // Someone else replaces the file.
    method Foreign(f: File)
      requires Valid()
      modifies `file, `history
      ensures Valid() && file == f
    {
      file := f;
      history := After(history, ForeignWrite(f));
    }

    // The caller edits the document in memory.
    method Edit(d: Document)
      requires Valid()
      modifies `doc
      ensures Valid() && doc == d
    {
      doc := d;
    }

    method Latch()
      requires Valid()
      modifies `blocked, `history
      ensures Valid() && blocked
      ensures history == After(old(history), Latched)
    {
      blocked := true;
      history := After(history, Latched);
    }

    /** Undecodable bytes block; an unreadable file does not. What is loaded starts over
        with its observations. */
    method Load(readable: bool, empty: Document) returns (ok: bool)
      requires Valid()
      modifies `loaded, `blocked, `image, `doc, `history
      ensures Valid()
      ensures ok <==>
        if old(loaded) then !blocked else readable && (file.Absent? || (file.Encoded? && Accepted(file.doc)))
      ensures ok && !old(loaded) ==> loaded && image == file && blocked == old(blocked)
      ensures ok && !old(loaded) && file.Absent? ==> doc == AfterStart(empty)
      ensures ok && !old(loaded) && file.Encoded? ==> doc == AfterStart(file.doc)
      ensures !old(loaded) && readable && !ok ==> loaded && blocked
      ensures !readable || old(loaded) ==> loaded == old(loaded) && blocked == old(blocked)
      ensures !ok || old(loaded) ==> doc == old(doc) && image == old(image)
    {
      if loaded {
        return !blocked;
      }
      if !readable {
        return false;
      }
      var read := file;
      var d := empty;
      if !read.Absent? {
        var decoded := Decode(read);
        if decoded.None? {
          Latch();
          loaded := true;
          return false;
        }
        d := decoded.value;
      }
      image, doc, loaded := read, AfterStart(d), true;
      history := After(history, ReadImage(read));
      return true;
    }

    /** Succeeds only if the disk still holds the image this process last read or
        wrote, and then leaves exactly the document in memory there, decodable.
        Every failure latches; an ambiguous one may have written. `admitted` and
        `written` are what the file system reports, `landed` what it did. */
    method Persist(admitted: bool, written: bool, landed: bool) returns (ok: bool)
      requires Valid()
      modifies `file, `blocked, `image, `history
      ensures Valid()
      ensures ok ==> !old(blocked) && loaded && !blocked && old(file) == old(image)
      ensures ok ==> file == image == Encoded(doc) && Decode(file) == Some(doc)
      ensures !ok ==> blocked && image == old(image)
      ensures var writes := !old(blocked) && loaded && Accepted(doc) && admitted && old(file) == old(image);
        file == if writes && (written || landed) then Encoded(doc) else old(file)
      ensures ok <==> !old(blocked) && loaded && Accepted(doc) && admitted && old(file) == old(image)
                      && (written || old(image) == Encoded(doc))
    {
      if blocked || !loaded {
        Latch();
        return false;
      }
      var after := Encoded(doc);
      if !Accepted(doc) || !admitted {
        Latch();
        return false;
      }
      if file != image {
        Latch();
        return false;
      }
      if image != after {
        if written || landed {
          history := After(history, OwnWrite(file, after));
          file := after;
        }
        if !written {
          blocked := true;
          history := After(history, Latched);
          return false;
        }
      }
      image := after;
      return true;
    }

    /** The comparison before a transaction: a changed or unreadable file latches. */
    method DiskCurrent(readable: bool) returns (ok: bool)
      requires Valid()
      modifies `blocked, `history
      ensures Valid()
      ensures ok <==> !old(blocked) && loaded && readable && file == image
      ensures ok ==> !blocked
      ensures old(blocked) || (loaded && !ok) ==> blocked
    {
      if blocked || !loaded {
        return false;
      }
      if !readable || file != image {
        Latch();
        return false;
      }
      return true;
    }
  }

  /** So whatever its methods are called with, the process writes only over bytes it knows,
      and never once it has latched; and what it has latched it knows. */
  lemma StateIsSound(a: State)
    requires a.Valid()
    ensures Safe(a.history) && Summarize(a.history).file == a.file
    ensures Summarize(a.history).latched <==> a.blocked
  {
  }
}
