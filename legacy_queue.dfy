/**
 * The first ingestion queue (engine/queue.py): a singly linked list of names
 * with head and tail pointers, plus the set of names already seen. `front`
 * returns the path of the head without decoding it.
 *
 * The linked list is described by the ghost sequence `nodes` (head first) and
 * the names it holds by the ghost sequence `contents`; the directory listing
 * is a parameter of the calls that read the directory.
 */
module LegacyQueue {

  import opened Wrappers
  import opened QueueSpec

  /** `directory / name`. */
  datatype PathOf = PathOf(directory: string, name: Name)

  class Node {
    var data: Name
    var next: Node?

    constructor (data: Name)
      ensures this.data == data && next == null
    {
      this.data := data;
      next := null;
    }
  }

  /**
   * `nodes` is a chain from `first` to `last` whose `next` links follow the
   * sequence and end in `None`, holding `contents` in order.
   */
  ghost predicate Chain(first: Node?, last: Node?, nodes: seq<Node>, contents: seq<Name>)
    reads nodes
  {
    && (forall i :: 0 <= i < |nodes| - 1 ==> nodes[i] != nodes[|nodes| - 1])
    && (nodes == [] ==> first == null && last == null)
    && (nodes != [] ==> first == nodes[0] && last == nodes[|nodes| - 1] && last.next == null)
    && (forall i :: 0 <= i < |nodes| - 1 ==> nodes[i].next == nodes[i + 1])
    && |contents| == |nodes|
    && (forall i :: 0 <= i < |nodes| ==> nodes[i].data == contents[i])
  }

  lemma UnionEmpty(s: set<Name>)
    ensures {} + s == s
  {
  }

  class FileQueue {
    const directory: string
    var head: Node?
    var tail: Node?
    var seen: set<Name>
    ghost var nodes: seq<Node>
    ghost var contents: seq<Name>
    /** Every name ever appended, in order. */
    ghost var history: seq<Name>
    ghost var Repr: set<object>

    /** The nodes form one chain from `head` to `tail`, ending in `None`. */
    ghost predicate Linked()
      reads this, Repr
    {
      && this in Repr
      && (forall i :: 0 <= i < |nodes| ==> nodes[i] in Repr)
      && Chain(head, tail, nodes, contents)
    }

    /** The chain is linked, and a name enters it at most once in the queue's lifetime. */
    ghost predicate Valid()
      reads this, Repr
    {
      && Linked()
      && Distinct(history)
      && |contents| <= |history|
      && contents == history[|history| - |contents|..]
      && AllSeen(history, seen)
    }

    ghost function State(): NameBacklog
      reads this
    {
      NameBacklog(contents, seen)
    }

    /**
     * Scans every name of `entries` (what `os.listdir` returns); all are
     * enqueued when `enqueueExisting` holds and all are only marked seen
     * otherwise.
     */
    constructor (directory: string, entries: seq<DirEntry>, enqueueExisting: bool)
      ensures Valid() && this.directory == directory
      ensures enqueueExisting ==>
        State() == EnqueueNames(NameBacklog([], {}), Select(entries, Keeper(Everything)))
      ensures !enqueueExisting ==>
        head == null && contents == [] && seen == Names(Select(entries, Keeper(Everything)))
    {
      this.directory := directory;
      head := null;
      tail := null;
      seen := {};
      nodes := [];
      contents := [];
      history := [];
      Repr := {this};
      new;
      if enqueueExisting {
        Scan(entries, Everything);
      } else {
        Ignore(entries);
        UnionEmpty(Names(Select(entries, Keeper(Everything))));
      }
    }

    /** The scan's other branch: marks every name seen without enqueuing it. */
    method Ignore(entries: seq<DirEntry>)
      requires Valid()
      modifies this
      ensures Valid()
      ensures head == old(head) && tail == old(tail) && Repr == old(Repr)
      ensures nodes == old(nodes) && contents == old(contents) && history == old(history)
      ensures seen == old(seen) + Names(Select(entries, Keeper(Everything)))
    {
      var keep := Keeper(Everything);
      var i := 0;
      while i < |entries|
        invariant 0 <= i <= |entries|
        invariant head == old(head) && tail == old(tail) && Repr == old(Repr)
        invariant nodes == old(nodes) && contents == old(contents) && history == old(history)
        invariant seen == old(seen) + Names(Select(entries[..i], keep))
      {
        SelectSnoc(entries, i, keep);
        NamesSnoc(Select(entries[..i], keep), entries[i].name);
        seen := seen + {entries[i].name};
        i := i + 1;
      }
      assert entries[..i] == entries;
    }

    method IsEmpty() returns (r: bool)
      requires Valid()
      ensures r <==> head == null
      ensures r <==> contents == []
    {
      r := head == null;
    }

    /**
     * Links a new node holding `k`, a name not seen before, after the tail
     * (or as the only node) and records `k` as seen and in the history.
     */
    method Append(k: Name)
      requires Valid() && k !in seen
      modifies Repr
      ensures Valid() && fresh(tail) && Repr == old(Repr) + {tail}
      ensures nodes == old(nodes) + [tail] && contents == old(contents) + [k]
      ensures seen == old(seen) + {k} && history == old(history) + [k]
      ensures old(head) == null ==> head == tail && tail.data == k
      ensures old(head) != null ==> head == old(head) && old(tail).next == tail && tail.data == k
    {
      HistorySnoc(history, contents, seen, k);
      var n := new Node(k);
      if head == null {
        head := n;
      } else {
        tail.next := n;
      }
      tail := n;
      nodes := nodes + [n];
      contents := contents + [k];
      Repr := Repr + {n};
      seen := seen + {k};
      history := history + [k];
      forall i | 0 <= i < |nodes| - 1
        ensures nodes[i] in old(Repr) && nodes[i] != n && nodes[i].data == contents[i]
      {
        assert nodes[i] == old(nodes)[i];
      }
      assert Linked();
    }

    /**
     * A seen name leaves head, tail and the seen set as they are. Otherwise
     * a new node holding it becomes the tail: linked after the old tail, or
     * both head and tail when the queue was empty.
     */
    method Enqueue(k: Name)
      requires Valid()
      modifies Repr
      ensures Valid() && fresh(Repr - old(Repr))
      ensures State() == EnqueueName(old(State()), k)
      ensures history == old(history) + (if k in old(seen) then [] else [k])
      ensures k in old(seen) ==> head == old(head) && tail == old(tail)
      ensures k !in old(seen) && old(head) == null ==> fresh(head) && head == tail && head.data == k
      ensures k !in old(seen) && old(head) != null ==>
        fresh(tail) && head == old(head) && old(tail).next == tail && tail.data == k
    {
      if k !in seen {
        Append(k);
      }
    }

    /** `directory / head.data`, or `None` when the queue is empty. */
    method Front() returns (r: Option<PathOf>)
      requires Valid()
      ensures r.None? <==> contents == []
      ensures r.Some? ==> r.value == PathOf(directory, contents[0])
    {
      if head == null {
        return None;
      }
      return Some(PathOf(directory, head.data));
    }

    /**
     * A no-op on an empty queue; otherwise the head advances to its
     * successor and the tail is cleared when nothing is left.
     */
    method Dequeue()
      requires Valid()
      modifies this
      ensures Valid() && Repr == old(Repr)
      ensures State() == NameBacklog(Dequeued(old(contents)), old(seen))
      ensures history == old(history)
      ensures old(head) == null ==> head == null && tail == null
      ensures old(head) != null ==> head == old(head.next)
      ensures head == null ==> tail == null
    {
      if head == null {
        return;
      }
      head := head.next;
      nodes := nodes[1..];
      contents := contents[1..];
      if head == null {
        tail := null;
      }
    }

    /** Enqueues the name of every file of the current listing. */
    method Update(entries: seq<DirEntry>)
      requires Valid()
      modifies Repr
      ensures Valid() && fresh(Repr - old(Repr))
      ensures State() == EnqueueNames(old(State()), Select(entries, Keeper(FilesOnly)))
    {
      Scan(entries, FilesOnly);
    }

    /** Enqueues the name of every entry `f` keeps, in listing order. */
    method Scan(entries: seq<DirEntry>, f: Filter)
      requires Valid()
      modifies Repr
      ensures Valid() && fresh(Repr - old(Repr))
      ensures State() == EnqueueNames(old(State()), Select(entries, Keeper(f)))
    {
      var keep := Keeper(f);
      var i := 0;
      while i < |entries|
        invariant 0 <= i <= |entries|
        invariant Valid() && fresh(Repr - old(Repr))
        invariant State() == EnqueueNames(old(State()), Select(entries[..i], keep))
      {
        SelectSnoc(entries, i, keep);
        ghost var done := Select(entries[..i], keep);
        if keep(entries[i]) {
          ghost var before := State();
          Enqueue(entries[i].name);
          assert State() == EnqueueName(before, entries[i].name);
          EnqueueNamesSnoc(old(State()), done, entries[i].name);
          assert Select(entries[..i + 1], keep) == done + [entries[i].name];
        } else {
          assert Select(entries[..i + 1], keep) == done;
        }
        i := i + 1;
      }
      assert entries[..i] == entries;
    }
  }
}
