/** The directory tree under `~/.claude/projects` as `findJsonlFiles` sees it
    through `readdir(dir, { withFileTypes: true })`, and the depth-first walk
    that collects the `.jsonl` files in it. */
module FileTree {
  import opened Wrappers
  import opened Strings

  /** A directory entry: a regular file with its contents, a directory, or
      anything else `readdir` reports (a symbolic link, a socket, a device),
      which is neither `isDirectory()` nor `isFile()`. */
  datatype Node<C> = File(name: string, content: C) | Dir(name: string, listing: Listing<C>) | Special(name: string)

  /** What `readdir` yields on a directory: its entries in the order it lists
      them, or the reason it fails (permissions, the entry vanished, not a
      directory). */
  datatype Listing<C> = Unreadable(reason: string) | Entries(children: seq<Node<C>>)

  /** A file the walk found: its path and its contents. */
  datatype Found<C> = Found(path: string, content: C)

  const Extension: string := ".jsonl"

  /** `path.join(dir, name)` for a plain entry name. */
  function JoinPath(dir: string, name: string): string {
    dir + "/" + name
  }

  /** The walk over the entries of one directory, as the loop in `walk` does
      it: entries in order, files whose name ends with `.jsonl` pushed,
      directories walked in depth first; the first directory that cannot be
      listed aborts the whole walk with its error. */
  function WalkEntries<C>(dir: string, entries: seq<Node<C>>): Result<seq<Found<C>>, string>
    decreases entries
  {
    if entries == [] then Success([])
    else
      var before := WalkEntries(dir, entries[..|entries| - 1]);
      var last := entries[|entries| - 1];
      assert last in entries;
      if before.Failure? then before
      else
        match last
        case File(name, content) =>
          if EndsWith(name, Extension) then Success(before.value + [Found(JoinPath(dir, name), content)])
          else before
        case Special(_) => before
        case Dir(name, listing) =>
          match listing
          case Unreadable(reason) => Failure(reason)
          case Entries(children) =>
            var inner := WalkEntries(JoinPath(dir, name), children);
            if inner.Failure? then inner else Success(before.value + inner.value)
  }

  /** `findJsonlFiles(dir)`: list `dir`, then walk its entries. */
  function FindJsonl<C>(dir: string, listing: Listing<C>): Result<seq<Found<C>>, string> {
    match listing
    case Unreadable(reason) => Failure(reason)
    case Entries(entries) => WalkEntries(dir, entries)
  }

  // ---------------------------------------------------------------- reference

  /** No directory anywhere in the entries fails to list. */
  predicate AllReadable<C>(entries: seq<Node<C>>)
    decreases entries
  {
    if entries == [] then true
    else
      assert entries[0] in entries;
      match entries[0]
      case Dir(_, Unreadable(_)) => false
      case Dir(_, Entries(children)) => AllReadable(children) && AllReadable(entries[1..])
      case _ => AllReadable(entries[1..])
  }

  /** Every regular file in the tree, with its path, in depth-first order:
      a directory's files stand where the directory stands. */
  function RegularFiles<C>(dir: string, entries: seq<Node<C>>): seq<Found<C>>
    decreases entries
  {
    if entries == [] then []
    else
      assert entries[0] in entries;
      var here := match entries[0]
        case File(name, content) => [Found(JoinPath(dir, name), content)]
        case Dir(name, Entries(children)) => RegularFiles(JoinPath(dir, name), children)
        case _ => [];
      here + RegularFiles(dir, entries[1..])
  }

  /** The files whose path ends with `.jsonl`, in order. */
  function JsonlOnly<C>(fs: seq<Found<C>>): (r: seq<Found<C>>)
    ensures forall k :: 0 <= k < |r| ==> EndsWith(r[k].path, Extension)
  {
    if fs == [] then []
    else (if EndsWith(fs[0].path, Extension) then [fs[0]] else []) + JsonlOnly(fs[1..])
  }

  lemma {:induction false} JsonlOnlyConcat<C>(a: seq<Found<C>>, b: seq<Found<C>>)
    ensures JsonlOnly(a + b) == JsonlOnly(a) + JsonlOnly(b)
  {
    if a == [] {
      assert a + b == b;
    } else {
      assert (a + b)[1..] == a[1..] + b;
      assert (a + b)[0] == a[0];
      JsonlOnlyConcat(a[1..], b);
    }
  }

  lemma {:induction false} AllReadableConcat<C>(a: seq<Node<C>>, b: seq<Node<C>>)
    ensures AllReadable(a + b) == (AllReadable(a) && AllReadable(b))
  {
    if a != [] {
      assert (a + b)[1..] == a[1..] + b;
      assert (a + b)[0] == a[0];
      AllReadableConcat(a[1..], b);
    } else {
      assert a + b == b;
    }
  }

  lemma {:induction false} RegularFilesConcat<C>(dir: string, a: seq<Node<C>>, b: seq<Node<C>>)
    ensures RegularFiles(dir, a + b) == RegularFiles(dir, a) + RegularFiles(dir, b)
  {
    if a != [] {
      assert (a + b)[1..] == a[1..] + b;
      assert (a + b)[0] == a[0];
      RegularFilesConcat(dir, a[1..], b);
    } else {
      assert a + b == b;
    }
  }

  /** The path of an entry ends with `.jsonl` exactly when its name does: the
      suffix holds no `/`. */
  lemma JoinPathEndsWith(dir: string, name: string)
    ensures EndsWith(JoinPath(dir, name), Extension) <==> EndsWith(name, Extension)
  {
    var p := JoinPath(dir, name);
    if |name| >= |Extension| {
      assert p[|p| - |Extension|..] == name[|name| - |Extension|..];
    } else {
      assert p[|dir|] == '/';
      if |p| >= |Extension| {
        assert p[|p| - |Extension|..][|dir| - (|p| - |Extension|)] == '/';
      }
    }
  }

  /** The walk succeeds exactly when every directory in the tree can be
      listed, and then it yields the regular files whose name ends with
      `.jsonl`, in depth-first order, recursing into every subdirectory. */
  lemma SplitLast<T>(s: seq<T>)
    requires s != []
    ensures s == s[..|s| - 1] + [s[|s| - 1]]
    ensures [s[|s| - 1]][1..] == []
  {
  }

  lemma {:induction false} WalkFindsJsonlFiles<C>(dir: string, entries: seq<Node<C>>)
    ensures WalkEntries(dir, entries).Success? <==> AllReadable(entries)
    ensures WalkEntries(dir, entries).Success? ==>
              WalkEntries(dir, entries).value == JsonlOnly(RegularFiles(dir, entries))
    decreases entries
  {
    if entries != [] {
      var init := entries[..|entries| - 1];
      var last := entries[|entries| - 1];
      assert last in entries;
      SplitLast(entries);
      WalkFindsJsonlFiles(dir, init);
      AllReadableConcat(init, [last]);
      RegularFilesConcat(dir, init, [last]);
      JsonlOnlyConcat(RegularFiles(dir, init), RegularFiles(dir, [last]));
      match last
      case File(name, content) =>
        JoinPathEndsWith(dir, name);
        assert JsonlOnly([Found(JoinPath(dir, name), content)]) ==
               if EndsWith(name, Extension) then [Found(JoinPath(dir, name), content)] else [];
      case Special(_) =>
      case Dir(name, listing) =>
        match listing
        case Unreadable(_) =>
        case Entries(children) =>
          WalkFindsJsonlFiles(JoinPath(dir, name), children);
          assert RegularFiles(dir, [last]) == RegularFiles(JoinPath(dir, name), children);
    }
  }

  // ---------------------------------------------------------------- the walk

  /** Once the walk over some first entries has failed, the walk over all of
      them fails with that same error. */
  lemma {:induction false} WalkFailureAborts<C>(dir: string, entries: seq<Node<C>>, i: nat)
    requires i <= |entries| && WalkEntries(dir, entries[..i]).Failure?
    ensures WalkEntries(dir, entries) == WalkEntries(dir, entries[..i])
    decreases |entries|
  {
    if i == |entries| {
      assert entries[..i] == entries;
    } else {
      var init := entries[..|entries| - 1];
      assert init[..i] == entries[..i];
      WalkFailureAborts(dir, init, i);
    }
  }

  /** `walk(currentDir)` as the source runs it: list the directory, then loop
      over its entries, pushing each `.jsonl` file onto `results` and walking
      into each subdirectory before going on. A failure anywhere rejects the
      whole walk. */
  method Walk<C>(currentDir: string, listing: Listing<C>, results: seq<Found<C>>)
    returns (r: Result<seq<Found<C>>, string>)
    ensures FindJsonl(currentDir, listing).Failure? ==> r == FindJsonl(currentDir, listing)
    ensures FindJsonl(currentDir, listing).Success? ==> r == Success(results + FindJsonl(currentDir, listing).value)
    decreases listing
  {
    if listing.Unreadable? {
      return Failure(listing.reason);
    }
    var entries := listing.children;
    var acc := results;
    var i := 0;
    while i < |entries|
      invariant 0 <= i <= |entries|
      invariant WalkEntries(currentDir, entries[..i]).Success?
      invariant acc == results + WalkEntries(currentDir, entries[..i]).value
    {
      var entry := entries[i];
      assert entries[..i + 1][..i] == entries[..i] && entries[..i + 1][i] == entry;
      assert entry in entries;
      var fullPath := JoinPath(currentDir, entry.name);
      match entry {
        case Dir(_, sub) =>
          var out := Walk(fullPath, sub, acc);
          if out.Failure? {
            WalkFailureAborts(currentDir, entries, i + 1);
            return Failure(out.error);
          }
          acc := out.value;
        case File(name, content) =>
          if EndsWith(name, Extension) {
            acc := acc + [Found(fullPath, content)];
          }
        case Special(_) =>
      }
      i := i + 1;
    }
    assert entries[..i] == entries;
    return Success(acc);
  }
}
