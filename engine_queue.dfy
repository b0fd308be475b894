/**
 * The previous ingestion queues (src/engine/queue.py), driven by the
 * configuration. Construction considers every name `os.listdir` returns,
 * with no file or suffix test, and enqueues them when either the
 * configuration's or the caller's `enqueue_existing` flag holds; `update`
 * enqueues the names of the entries that are files. `FileQueue` is the lazy
 * variant and `ImageQueue` the eager one.
 *
 * The decoder the source names, `create_image_from_config(config, path)`, is
 * the parameter `decode`; the listing is the parameter `entries`.
 */
module EngineQueue {

  import opened Wrappers
  import opened Image
  import opened QueueSpec

  /** `FileQueue`: the backlog holds names, decoded when asked for the head. */
  class FileQueue {
    var backlog: seq<Name>
    var seen: set<Name>
    /** Every key ever appended to the backlog, in order. */
    ghost var history: seq<Name>

    /**
     * A key enters the backlog at most once in the queue's lifetime: the
     * backlog is what is left of a history without repeats, and every key
     * ever appended is seen.
     */
    ghost predicate Valid()
      reads this
    {
      && Distinct(history)
      && |backlog| <= |history|
      && backlog == history[|history| - |backlog|..]
      && Names(history) <= seen
    }

    function State(): NameBacklog
      reads this
    {
      NameBacklog(backlog, seen)
    }

    /**
     * Scans every name of `entries`; all are enqueued when either flag
     * holds and all are only marked seen otherwise.
     */
    constructor (entries: seq<DirEntry>, configEnqueueExisting: bool, enqueueExisting: bool)
      ensures Valid()
      ensures (configEnqueueExisting || enqueueExisting) ==>
        State() == EnqueueNames(NameBacklog([], {}), Select(entries, Keeper(Everything)))
      ensures !(configEnqueueExisting || enqueueExisting) ==>
        backlog == [] && seen == Names(Select(entries, Keeper(Everything)))
    {
      backlog := [];
      seen := {};
      history := [];
      new;
      if configEnqueueExisting || enqueueExisting {
        Scan(entries, Everything);
      } else {
        Ignore(entries);
      }
    }

    /** The scan's other branch: marks every name seen without enqueuing it. */
    method Ignore(entries: seq<DirEntry>)
      requires Valid()
      modifies this
      ensures Valid()
      ensures backlog == old(backlog) && history == old(history)
      ensures seen == old(seen) + Names(Select(entries, Keeper(Everything)))
    {
      var keep := Keeper(Everything);
      var i := 0;
      while i < |entries|
        invariant 0 <= i <= |entries|
        invariant backlog == old(backlog) && history == old(history)
        invariant seen == old(seen) + Names(Select(entries[..i], keep))
      {
        SelectSnoc(entries, i, keep);
        NamesSnoc(Select(entries[..i], keep), entries[i].name);
        seen := seen + {entries[i].name};
        i := i + 1;
      }
      assert entries[..i] == entries;
    }

    method IsEmpty() returns (r: bool)
      ensures r <==> backlog == []
    {
      r := |backlog| == 0;
    }

    /** Removes the head; a no-op on an empty queue. The seen set is kept. */
    method Dequeue()
      requires Valid()
      modifies this
      ensures Valid()
      ensures State() == NameBacklog(Dequeued(old(backlog)), old(seen))
      ensures history == old(history)
    {
      if backlog != [] {
        backlog := backlog[1..];
      }
    }

    /** A seen key is ignored; any other key is appended and marked seen. */
    method Enqueue(k: Name)
      requires Valid()
      modifies this
      ensures Valid()
      ensures State() == EnqueueName(old(State()), k)
      ensures history == old(history) + (if k in old(seen) then [] else [k])
    {
      if k in seen {
        return;
      }
      assert k !in history;
      backlog := backlog + [k];
      seen := seen + {k};
      history := history + [k];
      assert Names(history) == Names(old(history)) + {k};
    }

    /** Enqueues the name of every file of the current listing. */
    method Update(entries: seq<DirEntry>)
      requires Valid()
      modifies this
      ensures Valid()
      ensures State() == EnqueueNames(old(State()), Select(entries, Keeper(FilesOnly)))
    {
      Scan(entries, FilesOnly);
    }

    /** Enqueues the name of every entry `f` keeps, in listing order. */
    method Scan(entries: seq<DirEntry>, f: Filter)
      requires Valid()
      modifies this
      ensures Valid()
      ensures State() == EnqueueNames(old(State()), Select(entries, Keeper(f)))
    {
      var keep := Keeper(f);
      var i := 0;
      while i < |entries|
        invariant 0 <= i <= |entries|
        invariant Valid()
        invariant State() == EnqueueNames(old(State()), Select(entries[..i], keep))
      {
        SelectSnoc(entries, i, keep);
        ghost var done := Select(entries[..i], keep);
        if keep(entries[i]) {
          ghost var before := State();
          Enqueue(entries[i].name);
          assert State() == EnqueueName(before, entries[i].name);
          EnqueueNamesSnoc(old(State()), done, entries[i].name);
          assert Select(entries[..i + 1], keep) == done + [entries[i].name];
        } else {
          assert Select(entries[..i + 1], keep) == done;
        }
        i := i + 1;
      }
      assert entries[..i] == entries;
    }

    /**
     * Drops heads whose image does not decode and returns the first image
     * that does, leaving its key at the head; `None` once the queue is empty.
     * `decode` is the image factory at the time of the call.
     */
    method Front(decode: Factory) returns (r: Option<ImageSource>)
      requires Valid()
      modifies this
      ensures Valid()
      ensures (backlog, r) == FrontName(old(backlog), decode)
      ensures seen == old(seen) && history == old(history)
    {
      while backlog != []
        invariant Valid()
        invariant FrontName(backlog, decode) == FrontName(old(backlog), decode)
        invariant seen == old(seen) && history == old(history)
        decreases |backlog|
      {
        var image := decode(backlog[0]);
        if image.pixels.Some? {
          return Some(image);
        }
        Dequeue();
      }
      return None;
    }
  }

  /** `ImageQueue`: the backlog holds images decoded on `enqueue`. */
  class ImageQueue {
    var backlog: seq<ImageSource>
    var seen: set<Name>
    /** The keys of the images already dequeued, in order. */
    ghost var dropped: seq<Name>
    /** `keys[i]` is the key whose image is `backlog[i]`. */
    ghost var keys: seq<Name>

    /** Every key whose image was ever appended, in order: the dequeued ones, then the queued ones. */
    ghost function History(): seq<Name>
      reads this
    {
      dropped + keys
    }

    /**
     * A key's image enters the backlog at most once (the history has no
     * repeats), every key appended is seen, and every stored image decoded.
     */
    ghost predicate Valid()
      reads this
    {
      && Distinct(History())
      && |keys| == |backlog|
      && Names(History()) <= seen
      && (forall i :: 0 <= i < |backlog| ==> Decodable(backlog[i]))
    }

    ghost function State(): ImageBacklog
      reads this
    {
      ImageBacklog(backlog, keys, seen)
    }

    /**
     * Scans every name of `entries`; all are enqueued (decoded with
     * `decode`) when either flag holds and all are only marked seen otherwise.
     */
    constructor (entries: seq<DirEntry>, configEnqueueExisting: bool, enqueueExisting: bool, decode: Factory)
      ensures Valid()
      ensures (configEnqueueExisting || enqueueExisting) ==>
        State() == EnqueueImages(ImageBacklog([], [], {}), Select(entries, Keeper(Everything)), decode)
      ensures !(configEnqueueExisting || enqueueExisting) ==>
        backlog == [] && seen == Names(Select(entries, Keeper(Everything)))
    {
      backlog := [];
      seen := {};
      dropped := [];
      keys := [];
      new;
      if configEnqueueExisting || enqueueExisting {
        Scan(entries, Everything, decode);
      } else {
        Ignore(entries);
      }
    }

    /** The scan's other branch: marks every name seen without enqueuing it. */
    method Ignore(entries: seq<DirEntry>)
      requires Valid()
      modifies this
      ensures Valid()
      ensures backlog == old(backlog) && keys == old(keys) && dropped == old(dropped)
      ensures seen == old(seen) + Names(Select(entries, Keeper(Everything)))
    {
      var keep := Keeper(Everything);
      var i := 0;
      while i < |entries|
        invariant 0 <= i <= |entries|
        invariant backlog == old(backlog) && keys == old(keys) && dropped == old(dropped)
        invariant seen == old(seen) + Names(Select(entries[..i], keep))
      {
        SelectSnoc(entries, i, keep);
        NamesSnoc(Select(entries[..i], keep), entries[i].name);
        seen := seen + {entries[i].name};
        i := i + 1;
      }
      assert entries[..i] == entries;
    }

    method IsEmpty() returns (r: bool)
      ensures r <==> backlog == []
    {
      r := |backlog| == 0;
    }

    /** Removes the head; a no-op on an empty queue. */
    method Dequeue()
      requires Valid()
      modifies this
      ensures Valid()
      ensures State() == ImageBacklog(Dequeued(old(backlog)), Dequeued(old(keys)), old(seen))
      ensures History() == old(History())
    {
      if backlog != [] {
        backlog := backlog[1..];
        dropped := dropped + [keys[0]];
        keys := keys[1..];
        assert History() == old(History());
      }
    }

    /**
     * A seen key is ignored. Otherwise the key is decoded; only an image
     * that decodes is appended and its key marked seen, so a key that fails
     * stays unseen and a later `update` retries it.
     */
    method Enqueue(k: Name, decode: Factory)
      requires Valid()
      modifies this
      ensures Valid()
      ensures State() == EnqueueImage(old(State()), k, decode)
      ensures keys == old(keys) + Appended(old(seen), k, decode)
      ensures dropped == old(dropped)
      ensures History() == old(History()) + Appended(old(seen), k, decode)
    {
      if k in seen {
        return;
      }
      var image := decode(k);
      if image.pixels.Some? {
        assert k !in History();
        backlog := backlog + [image];
        keys := keys + [k];
        seen := seen + {k};
        assert History() == old(History()) + [k];
        assert Names(History()) == Names(old(History())) + {k};
      }
    }

    /** Enqueues the name of every file of the current listing. */
    method Update(entries: seq<DirEntry>, decode: Factory)
      requires Valid()
      modifies this
      ensures Valid()
      ensures State() == EnqueueImages(old(State()), Select(entries, Keeper(FilesOnly)), decode)
      ensures old(keys) <= keys && History() == old(History()) + keys[|old(keys)|..]
    {
      Scan(entries, FilesOnly, decode);
    }

    /** Enqueues (decoding) every entry `f` keeps, in listing order. */
    method Scan(entries: seq<DirEntry>, f: Filter, decode: Factory)
      requires Valid()
      modifies this
      ensures Valid()
      ensures State() == EnqueueImages(old(State()), Select(entries, Keeper(f)), decode)
      ensures old(keys) <= keys && History() == old(History()) + keys[|old(keys)|..]
    {
      var keep := Keeper(f);
      var i := 0;
      while i < |entries|
        invariant 0 <= i <= |entries|
        invariant Valid()
        invariant State() == EnqueueImages(old(State()), Select(entries[..i], keep), decode)
        invariant dropped == old(dropped)
      {
        SelectSnoc(entries, i, keep);
        ghost var done := Select(entries[..i], keep);
        if keep(entries[i]) {
          ghost var before := State();
          Enqueue(entries[i].name, decode);
          assert State() == EnqueueImage(before, entries[i].name, decode);
          EnqueueImagesSnoc(old(State()), done, entries[i].name, decode);
          assert Select(entries[..i + 1], keep) == done + [entries[i].name];
        } else {
          assert Select(entries[..i + 1], keep) == done;
        }
        i := i + 1;
      }
      assert entries[..i] == entries;
      EnqueueImagesKeysGrow(old(State()), Select(entries, keep), decode);
      HistoryGrowth(dropped, old(keys), keys);
    }

    /** The head image without removing it; `None` exactly when the queue is empty. */
    method Front() returns (r: Option<ImageSource>)
      requires Valid()
      ensures r.None? <==> backlog == []
      ensures r.Some? ==> r.value == backlog[0] && Decodable(r.value)
    {
      r := if backlog != [] then Some(backlog[0]) else None;
    }
  }
  /** The queue `create_queue_from_config` returns. */
  datatype AnyQueue = Files(files: FileQueue) | Images(images: ImageQueue)

  /** An `ImageQueue` exactly when the queue type is `Image` (case-sensitive), otherwise a `FileQueue`. */
  method CreateQueueFromConfig(queueType: string, configEnqueueExisting: bool, entries: seq<DirEntry>,
                               enqueueExisting: bool, decode: Factory)
    returns (q: AnyQueue)
    ensures q.Images? <==> queueType == "Image"
    ensures q.Images? ==> fresh(q.images) && q.images.Valid()
    ensures q.Images? && (configEnqueueExisting || enqueueExisting) ==>
      q.images.State() == EnqueueImages(ImageBacklog([], [], {}), Select(entries, Keeper(Everything)), decode)
    ensures q.Images? && !(configEnqueueExisting || enqueueExisting) ==>
      q.images.backlog == [] && q.images.seen == Names(Select(entries, Keeper(Everything)))
    ensures q.Files? ==> fresh(q.files) && q.files.Valid()
    ensures q.Files? && (configEnqueueExisting || enqueueExisting) ==>
      q.files.State() == EnqueueNames(NameBacklog([], {}), Select(entries, Keeper(Everything)))
    ensures q.Files? && !(configEnqueueExisting || enqueueExisting) ==>
      q.files.backlog == [] && q.files.seen == Names(Select(entries, Keeper(Everything)))
  {
    if queueType == "Image" {
      var iq := new ImageQueue(entries, configEnqueueExisting, enqueueExisting, decode);
      q := Images(iq);
    } else {
      var fq := new FileQueue(entries, configEnqueueExisting, enqueueExisting);
      q := Files(fq);
    }
  }
}
