/** Day 7: a terminal session is replayed into a directory tree kept in an
    arena: directories are addressed by their index in a growing sequence, the
    root is directory 0, and a cursor names the current directory. Part 1 adds
    up the sizes of the directories of size at most 100000; part 2 finds the
    smallest directory whose removal leaves at least 30000000 of 70000000
    units free. */
module Day07 {
  import opened Common
  import opened Text

  /** A `HashMap<String, _>` keyed by name, as a list of (name, value) entries
      with distinct names. */
  type Table = seq<(string, nat)>

  predicate DistinctNames(t: Table)
  {
    forall i, j :: 0 <= i < j < |t| ==> t[i].0 != t[j].0
  }

  /** `HashMap::get` */
  function Lookup(t: Table, name: string): (r: Option<nat>)
    ensures r.Some? <==> exists k :: 0 <= k < |t| && t[k].0 == name
    ensures r.Some? ==> (name, r.value) in t
  {
    if t == [] then None
    else if t[0].0 == name then Some(t[0].1)
    else
      var r := Lookup(t[1..], name);
      assert forall k :: 1 <= k < |t| ==> t[k] == t[1..][k - 1];
      r
  }

  /** `HashMap::insert`: the entry under `name` is replaced, or added at the
      end when there is none. */
  function Insert(t: Table, name: string, v: nat): (r: Table)
    ensures Lookup(r, name) == Some(v)
    ensures forall other :: other != name ==> Lookup(r, other) == Lookup(t, other)
    ensures forall e :: e in r ==> e in t || e == (name, v)
    ensures Lookup(t, name).None? ==> r == t + [(name, v)]
  {
    if t == [] then [(name, v)]
    else if t[0].0 == name then
      assert forall e :: e in t[1..] ==> e in t;
      var r := [(name, v)] + t[1..];
      assert forall k :: 1 <= k < |r| ==> r[k] == t[k];
      r
    else
      var rest := Insert(t[1..], name, v);
      assert forall e :: e in t[1..] ==> e in t;
      var r := [t[0]] + rest;
      assert r[1..] == rest;
      ConsTail(t, [(name, v)]);
      r
  }

  /** Inserting keeps the names distinct. */
  lemma {:induction false} InsertDistinct(t: Table, name: string, v: nat)
    requires DistinctNames(t)
    ensures DistinctNames(Insert(t, name, v))
  {
    var r := Insert(t, name, v);
    if t != [] {
      DistinctTail(t);
      if t[0].0 != name {
        var rest := Insert(t[1..], name, v);
        assert r == [t[0]] + rest;
        InsertDistinct(t[1..], name, v);
        assert forall e :: e in rest ==> e.0 != t[0].0;
        ConsDistinct(t[0], rest);
      } else {
        assert r == [(name, v)] + t[1..];
        ConsDistinct((name, v), t[1..]);
      }
    }
  }

  /** Below the first entry of a table of distinct names: distinct names,
      none of them the first entry's. */
  lemma DistinctTail(t: Table)
    requires DistinctNames(t) && t != []
    ensures DistinctNames(t[1..]) && forall e :: e in t[1..] ==> e.0 != t[0].0
  {
    forall i, j | 0 <= i < j < |t[1..]|
      ensures t[1..][i].0 != t[1..][j].0
    {
      assert t[1..][i] == t[i + 1] && t[1..][j] == t[j + 1];
    }
    forall e | e in t[1..]
      ensures e.0 != t[0].0
    {
      var k :| 0 <= k < |t[1..]| && t[1..][k] == e;
      assert t[k + 1] == e;
    }
  }

  /** An entry whose name is not in a table of distinct names can go in front. */
  lemma ConsDistinct(x: (string, nat), t: Table)
    requires DistinctNames(t) && forall e :: e in t ==> e.0 != x.0
    ensures DistinctNames([x] + t)
  {
    var r := [x] + t;
    forall i, j | 0 <= i < j < |r|
      ensures r[i].0 != r[j].0
    {
      assert r[j] == t[j - 1];
      if i > 0 {
        assert r[i] == t[i - 1];
      } else {
        assert r[j] in t;
      }
    }
  }

  /** The sum of a table's values. */
  function Total(t: Table): nat
  {
    if t == [] then 0 else t[0].1 + Total(t[1..])
  }

  function ValueOr0(r: Option<nat>): nat
  {
    match r
    case None => 0
    case Some(v) => v
  }

  /** Inserting `v` under `name` changes the total by `v` less what was there. */
  lemma {:induction false} InsertTotal(t: Table, name: string, v: nat)
    ensures Total(Insert(t, name, v)) + ValueOr0(Lookup(t, name)) == Total(t) + v
  {
    if t != [] && t[0].0 != name {
      InsertTotal(t[1..], name, v);
      var r := Insert(t, name, v);
      assert r[0] == t[0] && r[1..] == Insert(t[1..], name, v);
    }
  }

  /** `Dir`: its parent's index, its files' sizes and its children's indices,
      both by name. */
  datatype Dir = Dir(parent: nat, files: Table, subdirs: Table)
  {
    /** `Dir::add_file` */
    function AddFile(name: string, size: nat): (r: Dir)
      ensures r.parent == parent && r.subdirs == subdirs
      ensures Lookup(r.files, name) == Some(size)
      ensures forall other :: other != name ==> Lookup(r.files, other) == Lookup(files, other)
    {
      this.(files := Insert(files, name, size))
    }

    /** `Dir::add_dir` */
    function AddDir(name: string, index: nat): (r: Dir)
      ensures r.parent == parent && r.files == files
      ensures Lookup(r.subdirs, name) == Some(index)
      ensures forall other :: other != name ==> Lookup(r.subdirs, other) == Lookup(subdirs, other)
    {
      this.(subdirs := Insert(subdirs, name, index))
    }

    /** `Dir::get_dir` */
    function GetDir(name: string): (r: Option<nat>)
      ensures r.Some? ==> (name, r.value) in subdirs
      ensures r.None? ==> forall k :: 0 <= k < |subdirs| ==> subdirs[k].0 != name
    {
      Lookup(subdirs, name)
    }
  }

  /** `Dir::new` */
  function NewDir(parent: nat): (d: Dir)
    ensures d.parent == parent && d.files == [] && d.subdirs == []
  {
    Dir(parent, [], [])
  }

  /** Every child index of a table lies strictly between `i` and `n`. */
  predicate ChildrenAfter(t: Table, i: nat, n: nat)
  {
    forall k :: 0 <= k < |t| ==> i < t[k].1 < n
  }

  /** What the arena's operations keep true of directory `i`: its parent comes
      before it (the root is its own parent), its children come after it and
      exist, and its tables have distinct names. */
  predicate DirOk(dirs: seq<Dir>, i: nat)
  {
    i < |dirs|
    && (if i == 0 then dirs[i].parent == 0 else dirs[i].parent < i)
    && DistinctNames(dirs[i].files) && DistinctNames(dirs[i].subdirs)
    && ChildrenAfter(dirs[i].subdirs, i, |dirs|)
  }

  predicate WellFormed(dirs: seq<Dir>)
  {
    |dirs| >= 1 && forall i :: 0 <= i < |dirs| ==> DirOk(dirs, i)
  }

  /** `Arena::dir_size`: the sizes of the directory's files plus the sizes of
      its children. It terminates because children come after their parent. */
  function DirSize(dirs: seq<Dir>, i: nat): nat
    requires WellFormed(dirs) && i < |dirs|
    decreases |dirs| - i, 1, 0
  {
    assert DirOk(dirs, i);
    Total(dirs[i].files) + ChildrenSize(dirs, i, dirs[i].subdirs)
  }

  /** The sizes of the children listed in `ch`, all of which come after `i`. */
  function ChildrenSize(dirs: seq<Dir>, i: nat, ch: Table): nat
    requires WellFormed(dirs) && i < |dirs| && ChildrenAfter(ch, i, |dirs|)
    decreases |dirs| - i, 0, |ch|
  {
    if ch == [] then 0 else DirSize(dirs, ch[0].1) + ChildrenSize(dirs, i, ch[1..])
  }

  /** `Arena::size`: the size of the root. */
  function Size(dirs: seq<Dir>): nat
    requires WellFormed(dirs)
  {
    DirSize(dirs, 0)
  }

  lemma {:induction false} ChildrenSizeAtLeast(dirs: seq<Dir>, i: nat, ch: Table, k: nat)
    requires WellFormed(dirs) && i < |dirs| && ChildrenAfter(ch, i, |dirs|)
    requires k < |ch|
    ensures ChildrenSize(dirs, i, ch) >= DirSize(dirs, ch[k].1)
    decreases |ch|
  {
    if k > 0 {
      ChildrenSizeAtLeast(dirs, i, ch[1..], k - 1);
    }
  }

  /** A directory is at least as large as each of its children. */
  lemma ChildNoLarger(dirs: seq<Dir>, i: nat, name: string)
    requires WellFormed(dirs) && i < |dirs|
    requires dirs[i].GetDir(name).Some?
    ensures i < dirs[i].GetDir(name).value < |dirs|
    ensures DirSize(dirs, dirs[i].GetDir(name).value) <= DirSize(dirs, i)
  {
    assert DirOk(dirs, i);
    var ch := dirs[i].subdirs;
    var k :| 0 <= k < |ch| && ch[k] == (name, dirs[i].GetDir(name).value);
    ChildrenSizeAtLeast(dirs, i, ch, k);
  }

  lemma {:induction false} ChildrenSizeCongruent(d1: seq<Dir>, d2: seq<Dir>, i: nat, ch: Table)
    requires WellFormed(d1) && WellFormed(d2) && i < |d1| && i < |d2|
    requires ChildrenAfter(ch, i, |d1|) && ChildrenAfter(ch, i, |d2|)
    requires forall k :: 0 <= k < |ch| ==> DirSize(d1, ch[k].1) == DirSize(d2, ch[k].1)
    ensures ChildrenSize(d1, i, ch) == ChildrenSize(d2, i, ch)
    decreases |ch|
  {
    if ch != [] {
      assert forall k :: 1 <= k < |ch| ==> ch[1..][k - 1] == ch[k];
      ChildrenSizeCongruent(d1, d2, i, ch[1..]);
    }
  }

  lemma {:induction false} ChildrenSizeAppend(dirs: seq<Dir>, i: nat, ch: Table, e: (string, nat))
    requires WellFormed(dirs) && i < |dirs| && ChildrenAfter(ch + [e], i, |dirs|)
    ensures ChildrenAfter(ch, i, |dirs|) && e.1 < |dirs|
    ensures ChildrenSize(dirs, i, ch + [e]) == ChildrenSize(dirs, i, ch) + DirSize(dirs, e.1)
    decreases |ch|
  {
    assert forall k :: 0 <= k < |ch| ==> (ch + [e])[k] == ch[k];
    assert (ch + [e])[|ch|] == e;
    if ch == [] {
      assert [] + [e] == [e];
    } else {
      assert (ch + [e])[1..] == ch[1..] + [e];
      ChildrenSizeAppend(dirs, i, ch[1..], e);
    }
  }

  /** `Arena::add_dir` on the directory sequence: a new, empty directory whose
      parent is `cur` is pushed, and its index is registered under `name` in
      `cur`. Nothing else changes. */
  function AddDirTo(dirs: seq<Dir>, cur: nat, name: string): (r: seq<Dir>)
    requires WellFormed(dirs) && cur < |dirs|
    ensures WellFormed(r)
    ensures |r| == |dirs| + 1 && r[|dirs|] == NewDir(cur)
    ensures r[cur] == dirs[cur].AddDir(name, |dirs|)
    ensures forall j :: 0 <= j < |dirs| && j != cur ==> r[j] == dirs[j]
  {
    var r := dirs[cur := dirs[cur].AddDir(name, |dirs|)] + [NewDir(cur)];
    AddDirWellFormed(dirs, cur, name, r);
    r
  }

  lemma AddDirWellFormed(dirs: seq<Dir>, cur: nat, name: string, r: seq<Dir>)
    requires WellFormed(dirs) && cur < |dirs|
    requires r == dirs[cur := dirs[cur].AddDir(name, |dirs|)] + [NewDir(cur)]
    ensures WellFormed(r)
    ensures forall j :: 0 <= j < |dirs| && j != cur ==> r[j] == dirs[j]
  {
    forall j | 0 <= j < |r|
      ensures DirOk(r, j)
    {
      if j == cur {
        AddDirOkAtCur(dirs, cur, name, r);
      } else if j < |dirs| {
        assert DirOk(dirs, j) && r[j] == dirs[j];
      }
    }
  }

  lemma AddDirOkAtCur(dirs: seq<Dir>, cur: nat, name: string, r: seq<Dir>)
    requires WellFormed(dirs) && cur < |dirs|
    requires r == dirs[cur := dirs[cur].AddDir(name, |dirs|)] + [NewDir(cur)]
    ensures DirOk(r, cur)
  {
    assert DirOk(dirs, cur);
    var n := |dirs|;
    var t := dirs[cur].subdirs;
    var t' := r[cur].subdirs;
    assert t' == Insert(t, name, n);
    InsertDistinct(t, name, n);
    forall k | 0 <= k < |t'|
      ensures cur < t'[k].1 < |r|
    {
      assert t'[k] in t';
      if t'[k] in t {
        var m :| 0 <= m < |t| && t[m] == t'[k];
      }
    }
  }

  /** `Arena::add_file` on the directory sequence: `size` is recorded under
      `name` in `cur` only. */
  function AddFileTo(dirs: seq<Dir>, cur: nat, name: string, size: nat): (r: seq<Dir>)
    requires WellFormed(dirs) && cur < |dirs|
    ensures WellFormed(r)
    ensures |r| == |dirs| && r[cur] == dirs[cur].AddFile(name, size)
    ensures forall j :: 0 <= j < |dirs| && j != cur ==> r[j] == dirs[j]
  {
    var r := dirs[cur := dirs[cur].AddFile(name, size)];
    assert WellFormed(r) by {
      forall j | 0 <= j < |r|
        ensures DirOk(r, j)
      {
        assert DirOk(dirs, j);
        if j == cur {
          InsertDistinct(dirs[j].files, name, size);
        }
      }
    }
    r
  }

  /** Listing a directory under a name that is new leaves the size of every
      existing directory unchanged: the new directory is empty. */
  lemma {:induction false} AddDirKeepsSize(dirs: seq<Dir>, cur: nat, name: string, j: nat)
    requires WellFormed(dirs) && cur < |dirs| && j < |dirs|
    requires dirs[cur].GetDir(name).None?
    ensures DirSize(AddDirTo(dirs, cur, name), j) == DirSize(dirs, j)
    decreases |dirs| - j, 1
  {
    var r := AddDirTo(dirs, cur, name);
    var n := |dirs|;
    assert DirOk(dirs, j) && DirOk(r, j);
    var ch := dirs[j].subdirs;
    AddDirKeepsChildren(dirs, cur, name, j, ch);
    if j == cur {
      assert r[j].subdirs == ch + [(name, n)];
      AppendEmptyChild(r, j, ch, (name, n));
    } else {
      assert r[j] == dirs[j];
    }
  }

  /** The children listed in `ch` keep their total when a directory is
      listed. */
  lemma {:induction false} AddDirKeepsChildren(dirs: seq<Dir>, cur: nat, name: string, j: nat, ch: Table)
    requires WellFormed(dirs) && cur < |dirs| && j < |dirs|
    requires dirs[cur].GetDir(name).None? && ChildrenAfter(ch, j, |dirs|)
    ensures ChildrenAfter(ch, j, |dirs| + 1)
    ensures ChildrenSize(AddDirTo(dirs, cur, name), j, ch) == ChildrenSize(dirs, j, ch)
    decreases |dirs| - j, 0, |ch|
  {
    if ch != [] {
      AddDirKeepsSize(dirs, cur, name, ch[0].1);
      assert ChildrenAfter(ch[1..], j, |dirs|);
      AddDirKeepsChildren(dirs, cur, name, j, ch[1..]);
    }
  }

  /** Listing an empty directory as one more child adds nothing to the
      children's total. */
  lemma AppendEmptyChild(dirs: seq<Dir>, i: nat, ch: Table, e: (string, nat))
    requires WellFormed(dirs) && i < |dirs| && ChildrenAfter(ch + [e], i, |dirs|)
    requires e.1 < |dirs| && dirs[e.1].files == [] && dirs[e.1].subdirs == []
    ensures ChildrenAfter(ch, i, |dirs|)
    ensures ChildrenSize(dirs, i, ch + [e]) == ChildrenSize(dirs, i, ch)
  {
    ChildrenSizeAppend(dirs, i, ch, e);
    assert DirSize(dirs, e.1) == 0;
  }

  /** Recording a file changes the size of the current directory by the new
      size less the size previously recorded under that name, and leaves
      every directory after it unchanged. */
  lemma {:induction false} AddFileSize(dirs: seq<Dir>, cur: nat, name: string, size: nat)
    requires WellFormed(dirs) && cur < |dirs|
    ensures var r := AddFileTo(dirs, cur, name, size);
            DirSize(r, cur) + ValueOr0(Lookup(dirs[cur].files, name)) == DirSize(dirs, cur) + size
    ensures forall j :: cur < j < |dirs| ==> DirSize(AddFileTo(dirs, cur, name, size), j) == DirSize(dirs, j)
  {
    var r := AddFileTo(dirs, cur, name, size);
    forall j | cur < j < |dirs|
      ensures DirSize(r, j) == DirSize(dirs, j)
    {
      SameAfter(dirs, r, cur, j);
    }
    assert DirOk(dirs, cur);
    var ch := dirs[cur].subdirs;
    ChildrenSizeCongruent(dirs, r, cur, ch);
    InsertTotal(dirs[cur].files, name, size);
  }

  /** Two arenas of the same length that agree on every directory after `cur`
      give those directories the same size. */
  lemma {:induction false} SameAfter(d1: seq<Dir>, d2: seq<Dir>, cur: nat, j: nat)
    requires WellFormed(d1) && WellFormed(d2) && |d1| == |d2|
    requires forall k :: cur < k < |d1| ==> d1[k] == d2[k]
    requires cur < j < |d1|
    ensures DirSize(d1, j) == DirSize(d2, j)
    decreases |d1| - j
  {
    assert DirOk(d1, j);
    var ch := d1[j].subdirs;
    forall k | 0 <= k < |ch|
      ensures DirSize(d1, ch[k].1) == DirSize(d2, ch[k].1)
    {
      SameAfter(d1, d2, cur, ch[k].1);
    }
    ChildrenSizeCongruent(d1, d2, j, ch);
  }

  /** The arena's state as a value: the cursor and the directories. */
  datatype Session = Session(cur: nat, dirs: seq<Dir>)

  predicate ValidSession(s: Session)
  {
    WellFormed(s.dirs) && s.cur < |s.dirs|
  }

  /** One line of the session, read with `split_whitespace`. */
  datatype Command =
    | CdRoot                       // `$ cd /`
    | CdParent                     // `$ cd ..`
    | CdChild(name: string)        // `$ cd name`
    | OtherCommand                 // `$ ls` and any other command
    | DirEntry(name: string)       // `dir name`
    | FileEntry(size: nat, name: string)  // `size name`

  /** The dispatch of `parse_input`: a line with too few words for the branch
      it takes (an empty line among them) or a file size that is not a number
      panics (`None`). */
  function ParseCommand(line: string): (r: Option<Command>)
    ensures Words(line) == [] ==> r.None?
    ensures r.Some? && r.value.FileEntry? ==> |Words(line)| >= 2 && ParseNat(Words(line)[0]) == Some(r.value.size)
  {
    var words := Words(line);
    if |words| == 0 then None
    else if words[0] == "$" then
      if |words| < 2 then None
      else if words[1] == "cd" then
        if |words| < 3 then None
        else if words[2] == "/" then Some(CdRoot)
        else if words[2] == ".." then Some(CdParent)
        else Some(CdChild(words[2]))
      else Some(OtherCommand)
    else if words[0] == "dir" then
      if |words| < 2 then None else Some(DirEntry(words[1]))
    else
      match ParseNat(words[0])
      case None => None
      case Some(size) => if |words| < 2 then None else Some(FileEntry(size, words[1]))
  }

  /** What one command does to the arena; `cd` into a name that was never
      listed panics (`None`). */
  function Step(s: Session, c: Command): (r: Option<Session>)
    requires ValidSession(s)
    ensures r.Some? ==> ValidSession(r.value)
    ensures r.None? <==> c.CdChild? && s.dirs[s.cur].GetDir(c.name).None?
  {
    match c
    case CdRoot => Some(s.(cur := 0))
    case CdParent =>
      assert DirOk(s.dirs, s.cur);
      Some(s.(cur := s.dirs[s.cur].parent))
    case CdChild(name) =>
      (match s.dirs[s.cur].GetDir(name)
       case None => None
       case Some(child) =>
         assert DirOk(s.dirs, s.cur);
         var k :| 0 <= k < |s.dirs[s.cur].subdirs| && s.dirs[s.cur].subdirs[k] == (name, child);
         Some(s.(cur := child)))
    case OtherCommand => Some(s)
    case DirEntry(name) => Some(s.(dirs := AddDirTo(s.dirs, s.cur, name)))
    case FileEntry(size, name) => Some(s.(dirs := AddFileTo(s.dirs, s.cur, name, size)))
  }

  /** The whole session, line by line, from state `s`. */
  function Replay(s: Session, lines: seq<string>): (r: Option<Session>)
    requires ValidSession(s)
    ensures r.Some? ==> ValidSession(r.value)
    ensures r.Some? ==> |r.value.dirs| >= |s.dirs|
    decreases |lines|
  {
    if lines == [] then Some(s)
    else
      match ParseCommand(lines[0])
      case None => None
      case Some(c) =>
        match Step(s, c)
        case None => None
        case Some(s') => Replay(s', lines[1..])
  }

  const InitialSession := Session(0, [NewDir(0)])

  /** `Arena`: the directories and the cursor. */
  class Arena {
    var cur: nat
    var dirs: seq<Dir>

    predicate Valid()
      reads this
    {
      WellFormed(dirs) && cur < |dirs|
    }

    function State(): Session
      reads this
    {
      Session(cur, dirs)
    }

    /** `Arena::new`: only the root, its own parent, with the cursor on it. */
    constructor ()
      ensures Valid()
      ensures cur == 0 && dirs == [NewDir(0)]
    {
      cur := 0;
      dirs := [NewDir(0)];
      new;
      assert DirOk(dirs, 0);
    }

    /** `Arena::move_to_root` */
    method MoveToRoot()
      requires Valid()
      modifies this
      ensures Valid()
      ensures cur == 0 && dirs == old(dirs)
    {
      cur := 0;
    }

    /** `Arena::move_to_parent`: at the root the cursor stays at 0. */
    method MoveToParent()
      requires Valid()
      modifies this
      ensures Valid()
      ensures cur == old(dirs[cur].parent) && dirs == old(dirs)
      ensures old(cur) == 0 ==> cur == 0
      ensures old(cur) > 0 ==> cur < old(cur)
    {
      assert DirOk(dirs, cur);
      cur := dirs[cur].parent;
    }

    /** `Arena::move_to_child`: moves to the index listed under `name`; when
        no such child was listed the original panics, and here `ok` is false
        and nothing changes. */
    method MoveToChild(name: string) returns (ok: bool)
      requires Valid()
      modifies this
      ensures Valid() && dirs == old(dirs)
      ensures ok <==> old(dirs[cur].GetDir(name)).Some?
      ensures ok ==> cur == old(dirs[cur].GetDir(name)).value && cur > old(cur)
      ensures !ok ==> cur == old(cur)
    {
      var child := dirs[cur].GetDir(name);
      match child
      case None =>
        ok := false;
      case Some(c) =>
        assert DirOk(dirs, cur);
        var k :| 0 <= k < |dirs[cur].subdirs| && dirs[cur].subdirs[k] == (name, c);
        cur := c;
        ok := true;
    }

    /** `Arena::add_file` */
    method AddFile(name: string, size: nat)
      requires Valid()
      modifies this
      ensures Valid() && cur == old(cur)
      ensures dirs == AddFileTo(old(dirs), old(cur), name, size)
    {
      ghost var after := AddFileTo(dirs, cur, name, size);
      dirs := dirs[cur := dirs[cur].AddFile(name, size)];
      assert dirs == after;
    }

    /** `Arena::add_dir` */
    method AddDir(name: string)
      requires Valid()
      modifies this
      ensures Valid() && cur == old(cur)
      ensures dirs == AddDirTo(old(dirs), old(cur), name)
    {
      ghost var after := AddDirTo(dirs, cur, name);
      var n := |dirs|;
      dirs := dirs + [NewDir(cur)];
      dirs := dirs[cur := dirs[cur].AddDir(name, n)];
      assert dirs == after;
    }
  }

  lemma ReplayStep(s: Session, lines: seq<string>, i: nat, c: Command)
    requires ValidSession(s) && i < |lines| && ParseCommand(lines[i]) == Some(c)
    ensures Replay(s, lines[i..]) ==
            match Step(s, c)
            case None => None
            case Some(s') => Replay(s', lines[i + 1..])
  {
    assert lines[i..][0] == lines[i] && lines[i..][1..] == lines[i + 1..];
  }

  /** `parse_input`: replays the session into a new arena; `None` where the
      original panics. */
  method ParseInput(lines: seq<string>) returns (r: Option<Arena>)
    ensures r.Some? <==> Replay(InitialSession, lines).Some?
    ensures r.Some? ==> r.value.Valid() && r.value.State() == Replay(InitialSession, lines).value
  {
    var arena := new Arena();
    var i := 0;
    while i < |lines|
      invariant 0 <= i <= |lines| && arena.Valid()
      invariant Replay(InitialSession, lines) == Replay(arena.State(), lines[i..])
    {
      var command := ParseCommand(lines[i]);
      if command.None? {
        assert lines[i..][0] == lines[i];
        return None;
      }
      var c := command.value;
      ghost var before := arena.State();
      ReplayStep(before, lines, i, c);
      match c {
        case CdRoot => arena.MoveToRoot();
        case CdParent => arena.MoveToParent();
        case CdChild(name) =>
          var ok := arena.MoveToChild(name);
          if !ok {
            return None;
          }
        case OtherCommand =>
        case DirEntry(name) => arena.AddDir(name);
        case FileEntry(size, name) => arena.AddFile(name, size);
      }
      assert Step(before, c) == Some(arena.State());
      i := i + 1;
    }
    assert lines[i..] == [];
    r := Some(arena);
  }

  /** The sizes at most 100000 among the first `k` directories, added up. */
  function SmallTotal(dirs: seq<Dir>, k: nat): (r: nat)
    requires WellFormed(dirs) && k <= |dirs|
    ensures r <= 100000 * k
  {
    if k == 0 then 0
    else
      var size := DirSize(dirs, k - 1);
      SmallTotal(dirs, k - 1) + (if size <= 100000 then size else 0)
  }

  /** `solve_first`: every directory, reachable from the root or not, of size
      at most 100000 contributes its size. */
  function SolveFirst(dirs: seq<Dir>): (r: nat)
    requires WellFormed(dirs)
    ensures r <= 100000 * |dirs|
  {
    SmallTotal(dirs, |dirs|)
  }

  lemma {:induction false} SmallTotalCounts(dirs: seq<Dir>, k: nat, i: nat)
    requires WellFormed(dirs) && k <= |dirs| && i < k
    ensures DirSize(dirs, i) <= 100000 ==> SmallTotal(dirs, k) >= DirSize(dirs, i)
  {
    if i < k - 1 {
      SmallTotalCounts(dirs, k - 1, i);
    }
  }

  /** Part 1's answer includes every small directory's size in full. */
  lemma SmallDirectoryCounted(dirs: seq<Dir>, i: nat)
    requires WellFormed(dirs) && i < |dirs|
    requires DirSize(dirs, i) <= 100000
    ensures SolveFirst(dirs) >= DirSize(dirs, i)
  {
    SmallTotalCounts(dirs, |dirs|, i);
  }

  /** The smallest size at least `need` among the first `k` directories. */
  function MinAtLeast(dirs: seq<Dir>, need: nat, k: nat): (r: Option<nat>)
    requires WellFormed(dirs) && k <= |dirs|
    ensures (exists i :: 0 <= i < k && DirSize(dirs, i) >= need) ==> r.Some?
    ensures r.Some? ==> r.value >= need && exists i :: 0 <= i < k && DirSize(dirs, i) == r.value
    ensures r.Some? ==> forall i :: 0 <= i < k && DirSize(dirs, i) >= need ==> r.value <= DirSize(dirs, i)
  {
    if k == 0 then None
    else
      var size := DirSize(dirs, k - 1);
      var rest := MinAtLeast(dirs, need, k - 1);
      if size < need then
        assert forall i :: 0 <= i < k && DirSize(dirs, i) >= need ==> i < k - 1;
        rest
      else
        match rest
        case None => Some(size)
        case Some(m) => Some(if size < m then size else m)
  }

  /** The space that must stay in use: 70000000 - 30000000. */
  const Limit: nat := 70000000 - 30000000

  /** `solve_second`: the smallest directory of size at least
      `total - Limit`. The subtraction is unsigned, so a total below `Limit`
      panics (`None`); otherwise the root itself qualifies and an answer
      exists. */
  function SolveSecond(dirs: seq<Dir>): (r: Option<nat>)
    requires WellFormed(dirs)
    ensures r.Some? <==> Size(dirs) >= Limit
    ensures r.Some? ==> r.value + Limit >= Size(dirs)
    ensures r.Some? ==> exists i :: 0 <= i < |dirs| && DirSize(dirs, i) == r.value
    ensures r.Some? ==> forall i :: 0 <= i < |dirs| && DirSize(dirs, i) + Limit >= Size(dirs) ==> r.value <= DirSize(dirs, i)
  {
    var total := Size(dirs);
    if total < Limit then None
    else
      assert DirSize(dirs, 0) >= total - Limit;
      MinAtLeast(dirs, total - Limit, |dirs|)
  }

  /** The directories the example session builds: the root (0) holds `a` (1)
      and `d` (2), and `a` holds `e` (3). */
  const ExampleDirs: seq<Dir> := [
    Dir(0, [("b.txt", 14848514), ("c.dat", 8504156)], [("a", 1), ("d", 2)]),
    Dir(0, [("f", 29116), ("g", 2557), ("h.lst", 62596)], [("e", 3)]),
    Dir(0, [("j", 4060174), ("d.log", 8033020), ("d.ext", 5626152), ("k", 7214296)], []),
    Dir(1, [("i", 584)], [])
  ]

  lemma ExampleWellFormed()
    ensures WellFormed(ExampleDirs)
  {
    var d := ExampleDirs;
    assert DirOk(d, 0) && DirOk(d, 1) && DirOk(d, 2) && DirOk(d, 3);
  }

  /** The example's sizes: e = 584, a = 94853, d = 24933642 and the root
      48381165; part 1 answers 95437 and part 2 24933642. */
  lemma ExampleAnswers()
    ensures WellFormed(ExampleDirs)
    ensures SolveFirst(ExampleDirs) == 95437
    ensures SolveSecond(ExampleDirs) == Some(24933642)
  {
    var d := ExampleDirs;
    ExampleSizes(d);
    assert MinAtLeast(d, 8381165, 1) == Some(48381165);
    assert MinAtLeast(d, 8381165, 2) == Some(48381165);
    assert MinAtLeast(d, 8381165, 3) == Some(24933642);
    assert MinAtLeast(d, 8381165, 4) == Some(24933642);
  }

  lemma ExampleSizes(d: seq<Dir>)
    requires d == ExampleDirs
    ensures WellFormed(d)
    ensures DirSize(d, 3) == 584 && DirSize(d, 2) == 24933642
    ensures DirSize(d, 1) == 94853 && DirSize(d, 0) == 48381165
  {
    ExampleWellFormed();
    assert DirSize(d, 3) == 584;
    assert DirSize(d, 2) == 24933642;
    assert DirSize(d, 1) == 94853;
  }
}
