/**
 * The behaviour shared by every snapshot of the ingestion queue, as pure
 * transitions on its state: a FIFO backlog plus the set of names already
 * seen. Queues that store names (lazy) re-decode the head on `front`; queues
 * that store images (eager) decode on `enqueue` and keep a name unseen while
 * it does not decode.
 *
 * The directory listing and the image factory are inputs: the listing is what
 * `iterdir`/`listdir` returns at the time of the call, and the factory maps a
 * name to the image the reader produces for `directory / name` at that time.
 */
module QueueSpec {

  import opened Wrappers
  import opened Text
  import opened Image

  type Name = string

  /** A directory entry: its name and whether `is_file()` holds of it. */
  datatype DirEntry = DirEntry(name: Name, isFile: bool)

  /** Which entries a scan considers. */
  datatype Filter =
    | MatchingFormat(format: string)  // files whose suffix is '.' + format, ignoring case
    | FilesOnly                       // files of any name
    | Everything                      // every entry `os.listdir` returns

  predicate Keeps(f: Filter, e: DirEntry)
  {
    match f
    case MatchingFormat(format) => e.isFile && Lower(Suffix(e.name)) == Lower("." + format)
    case FilesOnly => e.isFile
    case Everything => true
  }

  /** The filter as the test a scan applies to each entry. */
  function Keeper(f: Filter): DirEntry -> bool
  {
    e => Keeps(f, e)
  }

  /** The names of the entries a scan considers, in listing order. */
  function Select(entries: seq<DirEntry>, keep: DirEntry -> bool): seq<Name>
  {
    if entries == [] then []
    else
      var e := entries[|entries| - 1];
      Select(entries[..|entries| - 1], keep) + (if keep(e) then [e.name] else [])
  }

  function Names(ks: seq<Name>): set<Name>
  {
    set k | k in ks
  }

  ghost predicate Distinct(s: seq<Name>)
  {
    forall i, j :: 0 <= i < j < |s| ==> s[i] != s[j]
  }

  /** Every name of `history` is in `seen`. */
  ghost predicate AllSeen(history: seq<Name>, seen: set<Name>)
  {
    forall i :: 0 <= i < |history| ==> history[i] in seen
  }

  type Factory = Name -> ImageSource

  /** `image.array is not None`. */
  predicate Decodable(img: ImageSource)
  {
    img.pixels.Some?
  }

  /** State of a queue that stores names. */
  datatype NameBacklog = NameBacklog(backlog: seq<Name>, seen: set<Name>)

  /**
   * State of a queue that stores decoded images. `keys[i]` is the name whose
   * image is `backlog[i]`; the program keeps only the images, so `keys` is
   * the model's record of where each image came from.
   */
  datatype ImageBacklog = ImageBacklog(backlog: seq<ImageSource>, keys: seq<Name>, seen: set<Name>)

  /** Lazy `enqueue`: a seen name is ignored; otherwise it is appended and marked seen. */
  function EnqueueName(q: NameBacklog, k: Name): (r: NameBacklog)
    ensures r.seen == q.seen + {k}
    ensures q.backlog <= r.backlog && |r.backlog| <= |q.backlog| + 1
    ensures |r.backlog| == |q.backlog| + 1 <==> k !in q.seen
    ensures |r.backlog| == |q.backlog| + 1 ==> r.backlog[|q.backlog|] == k
  {
    if k in q.seen then q else NameBacklog(q.backlog + [k], q.seen + {k})
  }

  /** Lazy `enqueue` of each name in turn. */
  function EnqueueNames(q: NameBacklog, ks: seq<Name>): NameBacklog
  {
    if ks == [] then q else EnqueueName(EnqueueNames(q, ks[..|ks| - 1]), ks[|ks| - 1])
  }

  /**
   * Eager `enqueue`: a seen name is ignored; otherwise the name is decoded, and
   * only a decodable image is appended, its name marked seen.
   */
  function EnqueueImage(q: ImageBacklog, k: Name, decode: Factory): (r: ImageBacklog)
    ensures q.backlog <= r.backlog && q.keys <= r.keys && q.seen <= r.seen
    ensures k in r.seen <==> k in q.seen || Decodable(decode(k))
    ensures Consistent(q, decode) ==> Consistent(r, decode)
  {
    if k in q.seen then q
    else if Decodable(decode(k)) then ImageBacklog(q.backlog + [decode(k)], q.keys + [k], q.seen + {k})
    else q
  }

  /** What an eager `enqueue` of `k` appends to the keys: `k` when unseen and decodable, nothing otherwise. */
  function Appended(seen: set<Name>, k: Name, decode: Factory): (r: seq<Name>)
    ensures r == [] || r == [k]
    ensures r == [k] <==> k !in seen && Decodable(decode(k))
  {
    if k !in seen && Decodable(decode(k)) then [k] else []
  }

  /**
   * Each image of `q` is the decodable image of the key beside it, and the
   * keys are seen and without repeats.
   */
  ghost predicate Consistent(q: ImageBacklog, decode: Factory)
  {
    && |q.keys| == |q.backlog|
    && Distinct(q.keys) && Names(q.keys) <= q.seen
    && forall i :: 0 <= i < |q.backlog| ==> q.backlog[i] == decode(q.keys[i]) && Decodable(q.backlog[i])
  }

  function EnqueueImages(q: ImageBacklog, ks: seq<Name>, decode: Factory): ImageBacklog
  {
    if ks == [] then q else EnqueueImage(EnqueueImages(q, ks[..|ks| - 1], decode), ks[|ks| - 1], decode)
  }

  /** `dequeue`: removes the head; a no-op on an empty backlog. */
  function Dequeued<T>(backlog: seq<T>): (r: seq<T>)
    ensures backlog == [] ==> r == []
    ensures backlog != [] ==> [backlog[0]] + r == backlog
  {
    if backlog == [] then [] else backlog[1..]
  }

  /**
   * Lazy `front`: heads that do not decode are dropped for good; the first head
   * that decodes stays in place and its image is returned. The result is `None`
   * exactly when nothing is left.
   */
  function FrontName(backlog: seq<Name>, decode: Factory): (r: (seq<Name>, Option<ImageSource>))
    ensures |r.0| <= |backlog| && r.0 == backlog[|backlog| - |r.0|..]
    ensures r.1.None? <==> r.0 == []
    ensures r.1.Some? ==> r.1.value == decode(r.0[0]) && Decodable(r.1.value)
    ensures forall i :: 0 <= i < |backlog| - |r.0| ==> !Decodable(decode(backlog[i]))
  {
    if backlog == [] then ([], None)
    else if Decodable(decode(backlog[0])) then (backlog, Some(decode(backlog[0])))
    else FrontName(backlog[1..], decode)
  }

  lemma SelectSnoc(entries: seq<DirEntry>, i: nat, keep: DirEntry -> bool)
    requires i < |entries|
    ensures Select(entries[..i + 1], keep) == Select(entries[..i], keep) + (if keep(entries[i]) then [entries[i].name] else [])
  {
    assert entries[..i + 1][..i] == entries[..i];
  }

  lemma NamesSnoc(ks: seq<Name>, k: Name)
    ensures Names(ks + [k]) == Names(ks) + {k}
  {
  }

  /** A history whose key list grew at its end grew by exactly the new keys. */
  lemma HistoryGrowth(dropped: seq<Name>, before: seq<Name>, after: seq<Name>)
    requires before <= after
    ensures dropped + after == (dropped + before) + after[|before|..]
  {
    assert after == before + after[|before|..];
  }

  /**
   * Appending an unseen name to a repeat-free history, to the backlog that
   * is its suffix and to the seen set keeps all three properties.
   */
  lemma HistorySnoc(history: seq<Name>, backlog: seq<Name>, seen: set<Name>, k: Name)
    requires Distinct(history) && |backlog| <= |history| && backlog == history[|history| - |backlog|..]
    requires AllSeen(history, seen) && k !in seen
    ensures var h, b := history + [k], backlog + [k];
      Distinct(h) && |b| <= |h| && b == h[|h| - |b|..] && AllSeen(h, seen + {k})
  {
    var h := history + [k];
    assert h[|h| - |backlog| - 1..] == history[|history| - |backlog|..] + [k];
    forall i, j | 0 <= i < j < |h| ensures h[i] != h[j] {
      if j == |history| { assert h[i] == history[i] && history[i] in seen; }
    }
  }

  lemma EnqueueNamesSnoc(q: NameBacklog, ks: seq<Name>, k: Name)
    ensures EnqueueNames(q, ks + [k]) == EnqueueName(EnqueueNames(q, ks), k)
  {
    assert (ks + [k])[..|ks|] == ks;
  }

  lemma EnqueueImagesSnoc(q: ImageBacklog, ks: seq<Name>, k: Name, decode: Factory)
    ensures EnqueueImages(q, ks + [k], decode) == EnqueueImage(EnqueueImages(q, ks, decode), k, decode)
  {
    assert (ks + [k])[..|ks|] == ks;
  }

  /** Entry `i` is kept and is named `k`. */
  predicate KeptAs(entries: seq<DirEntry>, i: int, keep: DirEntry -> bool, k: Name)
    requires 0 <= i < |entries|
  {
    entries[i].name == k && keep(entries[i])
  }

  /** A scan considers exactly the names of the entries its filter keeps. */
  lemma {:induction false} SelectMembers(entries: seq<DirEntry>, keep: DirEntry -> bool)
    ensures forall k :: k in Select(entries, keep) <==> exists i :: 0 <= i < |entries| && KeptAs(entries, i, keep, k)
  {
    if entries != [] {
      var n := |entries| - 1;
      var p := entries[..n];
      var tail := if keep(entries[n]) then [entries[n].name] else [];
      assert Select(entries, keep) == Select(p, keep) + tail;
      SelectMembers(p, keep);
      forall k ensures k in Select(entries, keep) <==> exists i :: 0 <= i < |entries| && KeptAs(entries, i, keep, k) {
        if k in Select(p, keep) {
          var i :| 0 <= i < |p| && KeptAs(p, i, keep, k);
          assert KeptAs(entries, i, keep, k);
        } else if k in tail {
          assert KeptAs(entries, n, keep, k);
        }
        if exists i :: 0 <= i < |entries| && KeptAs(entries, i, keep, k) {
          var i :| 0 <= i < |entries| && KeptAs(entries, i, keep, k);
          if i < n { assert KeptAs(p, i, keep, k); }
        }
      }
    }
  }

  /**
   * What a lazy scan does: the old backlog stays in front; the names appended
   * are distinct, come from `ks` and were not seen before; every unseen name
   * of `ks` is appended; and every name of `ks` is seen afterwards.
   */
  lemma {:induction false} EnqueueNamesEffect(q: NameBacklog, ks: seq<Name>)
    ensures var r := EnqueueNames(q, ks);
      && q.backlog <= r.backlog
      && r.seen == q.seen + Names(ks)
      && Distinct(r.backlog[|q.backlog|..])
      && (forall i :: |q.backlog| <= i < |r.backlog| ==> r.backlog[i] in ks && r.backlog[i] !in q.seen)
      && (forall k :: k in ks && k !in q.seen ==> k in r.backlog[|q.backlog|..])
  {
    if ks != [] {
      var p, k := ks[..|ks| - 1], ks[|ks| - 1];
      assert ks == p + [k];
      EnqueueNamesEffect(q, p);
      var m := EnqueueNames(q, p);
      var r := EnqueueNames(q, ks);
      assert Names(ks) == Names(p) + {k};
      if k !in m.seen {
        assert r.backlog == m.backlog + [k];
        assert r.backlog[|q.backlog|..] == m.backlog[|q.backlog|..] + [k];
        forall i | |q.backlog| <= i < |m.backlog| ensures m.backlog[i] != k {
          assert m.backlog[i] in p && m.backlog[i] !in q.seen;
          assert m.backlog[i] in m.seen;
        }
      }
    }
  }

  /** Scanning names that are all seen changes nothing. */
  lemma {:induction false} EnqueueSeenNames(q: NameBacklog, ks: seq<Name>)
    requires forall k :: k in ks ==> k in q.seen
    ensures EnqueueNames(q, ks) == q
  {
    if ks != [] { EnqueueSeenNames(q, ks[..|ks| - 1]); }
  }

  /** Lazy `update` is idempotent: a second scan of the same listing changes nothing. */
  lemma EnqueueNamesIdempotent(q: NameBacklog, ks: seq<Name>)
    ensures EnqueueNames(EnqueueNames(q, ks), ks) == EnqueueNames(q, ks)
  {
    EnqueueNamesEffect(q, ks);
    EnqueueSeenNames(EnqueueNames(q, ks), ks);
  }

  /** An eager scan only appends keys. */
  lemma {:induction false} EnqueueImagesKeysGrow(q: ImageBacklog, ks: seq<Name>, decode: Factory)
    ensures q.keys <= EnqueueImages(q, ks, decode).keys
  {
    if ks != [] {
      EnqueueImagesKeysGrow(q, ks[..|ks| - 1], decode);
    }
  }

  /**
   * What an eager scan does: the old backlog stays in front; the images
   * appended are, in order, the decoded images of the names appended to
   * `keys`, and each of them decodes; those names are distinct, come from
   * `ks` and were not seen before; every unseen name of `ks` that decodes is
   * appended; and a name becomes seen exactly when it was seen or decodes now.
   */
  lemma {:induction false} EnqueueImagesEffect(q: ImageBacklog, ks: seq<Name>, decode: Factory)
    ensures var r := EnqueueImages(q, ks, decode);
      && q.backlog <= r.backlog && q.keys <= r.keys
      && |r.backlog| - |q.backlog| == |r.keys| - |q.keys|
      && (forall i :: |q.backlog| <= i < |r.backlog| ==>
            r.backlog[i] == decode(r.keys[i - |q.backlog| + |q.keys|]) && Decodable(r.backlog[i]))
      && Distinct(r.keys[|q.keys|..])
      && (forall i :: |q.keys| <= i < |r.keys| ==> r.keys[i] in ks && r.keys[i] !in q.seen)
      && (forall k :: k in ks && k !in q.seen && Decodable(decode(k)) ==> k in r.keys[|q.keys|..])
      && r.seen == q.seen + set k | k in ks && Decodable(decode(k))
  {
    if ks != [] {
      var p, k := ks[..|ks| - 1], ks[|ks| - 1];
      assert ks == p + [k];
      EnqueueImagesEffect(q, p, decode);
      var m := EnqueueImages(q, p, decode);
      var r := EnqueueImages(q, ks, decode);
      if k !in m.seen && Decodable(decode(k)) {
        assert r.keys[|q.keys|..] == m.keys[|q.keys|..] + [k];
        forall i | |q.keys| <= i < |m.keys| ensures m.keys[i] != k {
          assert m.keys[i] in p && m.keys[i] !in q.seen;
        }
      }
    }
  }

  /** Scanning names that are seen or do not decode changes nothing. */
  lemma {:induction false} EnqueueSettledImages(q: ImageBacklog, ks: seq<Name>, decode: Factory)
    requires forall k :: k in ks ==> k in q.seen || !Decodable(decode(k))
    ensures EnqueueImages(q, ks, decode) == q
  {
    if ks != [] { EnqueueSettledImages(q, ks[..|ks| - 1], decode); }
  }

  /**
   * Eager `update` is idempotent while the files do not change: a name that
   * failed to decode fails again, and every other name is seen by then.
   */
  lemma EnqueueImagesIdempotent(q: ImageBacklog, ks: seq<Name>, decode: Factory)
    ensures EnqueueImages(EnqueueImages(q, ks, decode), ks, decode) == EnqueueImages(q, ks, decode)
  {
    EnqueueImagesEffect(q, ks, decode);
    EnqueueSettledImages(EnqueueImages(q, ks, decode), ks, decode);
  }
}
