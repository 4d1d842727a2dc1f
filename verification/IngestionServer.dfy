/** Durable sequence checkpoints: one small file per tenant and cluster. */
module Checkpoints {
  import opened Wrappers

  /** The characters that trimming removes, by code point. */
  predicate IsSpace(c: char) {
    var n := c as int;
    || 0x09 <= n <= 0x0D || n == 0x20 || n == 0x85 || n == 0xA0 || n == 0x1680 || 0x2000 <= n <= 0x200A
    || n == 0x2028 || n == 0x2029 || n == 0x202F || n == 0x205F || n == 0x3000
  }

  function TrimLeft(s: string): (t: string)
    ensures t == "" || !IsSpace(t[0])
    ensures |t| <= |s| && (s != "" && IsSpace(s[0]) ==> |t| < |s|)
  {
    if s != "" && IsSpace(s[0]) then TrimLeft(s[1..]) else s
  }

  function TrimRight(s: string): (t: string)
    ensures t <= s && (t == "" || !IsSpace(t[|t| - 1]))
    ensures s != "" && IsSpace(s[|s| - 1]) ==> |t| < |s|
  {
    if s != "" && IsSpace(s[|s| - 1]) then TrimRight(s[..|s| - 1]) else s
  }

  predicate Separates(c: char) { c == '/' || c == '\\' || c == ':' || c == '\0' }

  function Replaced(s: string): string {
    seq(|s|, i requires 0 <= i < |s| => if Separates(s[i]) then '_' else s[i])
  }

  function SafeElement(s: string): string {
    var t := TrimRight(TrimLeft(s));
    if t == "" then "_" else Replaced(t)
  }

  ghost predicate AllSpace(s: string) {
    forall i :: 0 <= i < |s| ==> IsSpace(s[i])
  }

  predicate Trimmed(s: string) {
    s == "" || (!IsSpace(s[0]) && !IsSpace(s[|s| - 1]))
  }

  /** A part of the text with nothing but space around it, and no space at its ends. */
  ghost predicate Core(s: string, lo: nat, hi: nat) {
    lo <= hi <= |s| && AllSpace(s[..lo]) && AllSpace(s[hi..]) && Trimmed(s[lo..hi])
  }

  lemma {:induction false} LeftTrimmed(s: string) returns (lo: nat)
    ensures lo <= |s| && TrimLeft(s) == s[lo..] && AllSpace(s[..lo])
  {
    if s != "" && IsSpace(s[0]) {
      lo := LeftTrimmed(s[1..]);
      assert s[1..][lo..] == s[lo + 1..] && s[..lo + 1] == [s[0]] + s[1..][..lo];
      lo := lo + 1;
    } else {
      lo := 0;
    }
  }

  lemma {:induction false} RightTrimmed(s: string)
    ensures AllSpace(s[|TrimRight(s)|..])
  {
    if s != "" && IsSpace(s[|s| - 1]) {
      var t := s[..|s| - 1];
      RightTrimmed(t);
      assert s[|TrimRight(s)|..] == t[|TrimRight(t)|..] + [s[|s| - 1]];
    }
  }

  /** An underscore for each slash, backslash, colon and NUL, or for all of it when nothing is left. */
  ghost predicate EscapedAs(core: string, t: string) {
    if core == "" then t == "_" else
      && |t| == |core|
      && forall i :: 0 <= i < |t| ==> t[i] == if core[i] in "/\\:\0" then '_' else core[i]
  }

  lemma SeparatesExactly(c: char)
    ensures Separates(c) <==> c in "/\\:\0"
  {
  }

  lemma CoreEscaped(core: string)
    ensures EscapedAs(core, if core == "" then "_" else Replaced(core))
  {
    forall i | 0 <= i < |core| ensures Replaced(core)[i] == if core[i] in "/\\:\0" then '_' else core[i] {
      SeparatesExactly(core[i]);
    }
  }

  lemma CoreTrimmed(s: string) returns (lo: nat, hi: nat)
    ensures Core(s, lo, hi) && TrimRight(TrimLeft(s)) == s[lo..hi]
  {
    lo := LeftTrimmed(s);
    var rest := s[lo..];
    RightTrimmed(rest);
    var t := TrimRight(rest);
    hi := lo + |t|;
    assert t == rest[..|t|] == s[lo..hi] && rest[|t|..] == s[hi..];
    assert t != "" ==> t[0] == rest[0];
  }

  /** Escaping cuts the space around a name and escapes what is left. */
  lemma EscapedExactly(s: string)
    ensures exists lo: nat, hi: nat :: Core(s, lo, hi) && EscapedAs(s[lo..hi], SafeElement(s))
  {
    var lo, hi := CoreTrimmed(s);
    CoreEscaped(s[lo..hi]);
  }

  /** A cleaned path, as its elements. */
  datatype Directory = Directory(absolute: bool, elements: seq<string>)

  /** Joining one more element: "." stays, ".." goes up where that is possible. */
  function Enter(d: Directory, element: string): Directory {
    var n := |d.elements|;
    if element == "." then d
    else if element != ".." then d.(elements := d.elements + [element])
    else if n > 0 && d.elements[n - 1] != ".." then d.(elements := d.elements[..n - 1])
    else if d.absolute then d
    else d.(elements := d.elements + [".."])
  }

  /** The directory that holds the checkpoint file of a tenant and cluster. */
  function PathOf(root: Directory, tenant: string, cluster: string): Directory {
    Enter(Enter(root, SafeElement(tenant)), SafeElement(cluster))
  }

  /** A name that the path builder uses as it is. */
  ghost predicate Clean(s: string) {
    && s != "" && !IsSpace(s[0]) && !IsSpace(s[|s| - 1]) && (forall i :: 0 <= i < |s| ==> !Separates(s[i]))
    && Plain(s)
  }

  predicate Plain(s: string) { s != "." && s != ".." }

  lemma SafeOfTrimmed(s: string)
    requires s != "" && !IsSpace(s[0]) && !IsSpace(s[|s| - 1])
    ensures SafeElement(s) == Replaced(s)
  {
  }

  lemma CleanIsSafe(s: string)
    requires Clean(s)
    ensures SafeElement(s) == s && Plain(SafeElement(s))
  {
    SafeOfTrimmed(s);
    assert Replaced(s) == s;
  }

  /** Clean is exact: those names, and no others, become a path element of their own unchanged. */
  lemma CleanExactly(s: string)
    ensures Clean(s) <==> SafeElement(s) == s && forall d :: Enter(d, s) == d.(elements := d.elements + [s])
  {
    if Clean(s) {
      CleanIsSafe(s);
    } else if SafeElement(s) == s {
      assert s != "" && |TrimRight(TrimLeft(s))| == |s|;
      SafeOfTrimmed(s);
      forall i | 0 <= i < |s| ensures !Separates(s[i]) { assert Replaced(s)[i] == s[i]; }
      var d := Directory(true, ["d"]);
      assert Enter(d, s).elements != d.elements + [s];
    }
  }

  // ---------------------------------------------------------------- who shares a file

  /** What `filepath.Clean` leaves: no "." at all, and ".." only at the front of a relative path. */
  ghost predicate Cleaned(d: Directory) {
    && (forall i :: 0 <= i < |d.elements| ==> d.elements[i] != ".")
    && forall i, j :: 0 <= i <= j < |d.elements| && d.elements[j] == ".." ==> !d.absolute && d.elements[i] == ".."
  }

  /** Where a walk ends: so many levels up, then down through plain names. */
  datatype Walk = Walk(up: nat, down: seq<string>)

  function Step(w: Walk, element: string): Walk {
    if element == "." then w
    else if element != ".." then w.(down := w.down + [element])
    else if w.down != [] then w.(down := w.down[..|w.down| - 1])
    else w.(up := w.up + 1)
  }

  function WalkOf(tenant: string, cluster: string): Walk {
    Step(Step(Walk(0, []), SafeElement(tenant)), SafeElement(cluster))
  }

  function Climb(d: Directory, levels: nat): Directory {
    if levels == 0 then d else Enter(Climb(d, levels - 1), "..")
  }

  function Descend(d: Directory, names: seq<string>): Directory {
    d.(elements := d.elements + names)
  }

  ghost predicate AllPlain(names: seq<string>) {
    forall i :: 0 <= i < |names| ==> Plain(names[i])
  }

  lemma EnterSteps(root: Directory, w: Walk, element: string)
    requires AllPlain(w.down)
    ensures var v := Step(w, element);
            AllPlain(v.down) && Enter(Descend(Climb(root, w.up), w.down), element) == Descend(Climb(root, v.up), v.down)
  {
    var d := Climb(root, w.up).elements;
    if element == ".." && w.down != [] {
      assert (d + w.down)[..|d + w.down| - 1] == d + w.down[..|w.down| - 1];
    } else if element == ".." {
      assert Climb(root, w.up + 1).elements + [] == Climb(root, w.up + 1).elements && d + [] == d;
    } else if element != "." {
      assert d + w.down + [element] == d + (w.down + [element]);
    }
  }

  lemma PathIsWalk(root: Directory, tenant: string, cluster: string)
    ensures var w := WalkOf(tenant, cluster);
            && PathOf(root, tenant, cluster) == Descend(Climb(root, w.up), w.down)
            && AllPlain(w.down) && w.up + |w.down| <= 2
  {
    assert Descend(Climb(root, 0), []) == root;
    EnterSteps(root, Walk(0, []), SafeElement(tenant));
    EnterSteps(root, Step(Walk(0, []), SafeElement(tenant)), SafeElement(cluster));
  }

  lemma SameStart(d: Directory, x: seq<string>, y: seq<string>)
    ensures Descend(d, x) == Descend(d, y) <==> x == y
  {
    if Descend(d, x) == Descend(d, y) {
      assert x == Descend(d, x).elements[|d.elements|..] == y;
    }
  }

  ghost predicate EndsUp(d: Directory) {
    d.elements == [] || d.elements[|d.elements| - 1] == ".."
  }

  lemma CleanedEnds(d: Directory)
    requires Cleaned(d) && d.absolute && EndsUp(d)
    ensures d.elements == []
  {
  }

  lemma ClimbStaysCleaned(d: Directory)
    requires Cleaned(d)
    ensures Cleaned(Enter(d, ".."))
  {
    var n, e := |d.elements|, Enter(d, "..").elements;
    if EndsUp(d) && d.absolute {
      CleanedEnds(d);
    } else if EndsUp(d) {
      assert e == d.elements + [".."];
      forall i | 0 <= i < n ensures e[i] == ".." { assert n > 0 && d.elements[n - 1] == ".." && e[i] == d.elements[i]; }
    } else {
      assert e == d.elements[..n - 1];
    }
  }

  /** Going up once more ends in the same place only at the file system's root, or by coming back. */
  lemma OneLevelUp(d: Directory, x: seq<string>, y: seq<string>)
    requires Cleaned(d) && AllPlain(x) && AllPlain(y) && |y| <= 1
    ensures Descend(d, x) == Descend(Enter(d, ".."), y) <==>
            || (x == y && d.absolute && d.elements == [])
            || (x == [] && d.elements != [] && y == [d.elements[|d.elements| - 1]])
  {
    if !EndsUp(d) {
      OneNameUp(d, x, y);
    } else if d.absolute {
      CleanedEnds(d);
      assert Enter(d, "..") == d;
      SameStart(d, x, y);
    } else {
      var n := |d.elements|;
      assert Descend(Enter(d, ".."), y).elements[n] == "..";
      assert x != [] ==> Descend(d, x).elements[n] == x[0];
      assert y != [] && n > 0 ==> y[0] != d.elements[n - 1];
    }
  }

  lemma OneNameUp(d: Directory, x: seq<string>, y: seq<string>)
    requires !EndsUp(d) && |y| <= 1
    ensures Descend(d, x) == Descend(Enter(d, ".."), y) <==> x == [] && y == [d.elements[|d.elements| - 1]]
  {
    var n := |d.elements|;
    assert d.elements == d.elements[..n - 1] + [d.elements[n - 1]];
    if Descend(d, x) == Descend(Enter(d, ".."), y) {
      assert n + |x| == n - 1 + |y|;
      assert Descend(d, x).elements[n - 1] == d.elements[n - 1];
      assert Descend(Enter(d, ".."), y).elements[n - 1] == y[0];
    }
    if x == [] { assert Descend(d, x) == d; }
  }

  lemma TwoLevelsUp(d: Directory, x: seq<string>)
    requires Cleaned(d) && AllPlain(x)
    ensures Descend(d, x) == Enter(Enter(d, ".."), "..") <==> x == [] && d.absolute && d.elements == []
  {
    var n, e := |d.elements|, Enter(d, "..");
    ClimbStaysCleaned(d);
    if !EndsUp(d) {
      assert Enter(e, "..").elements != [] && |Enter(e, "..").elements| >= n ==> Enter(e, "..").elements[n - 1] == "..";
      assert Descend(d, x).elements[n - 1] == d.elements[n - 1];
    } else if d.absolute {
      CleanedEnds(d);
      assert Enter(e, "..") == d;
      assert Descend(d, []) == d;
      SameStart(d, x, []);
    } else {
      assert Enter(e, "..").elements == d.elements + [".."] + [".."];
      assert x != [] ==> Descend(d, x).elements[n] == x[0];
      assert Enter(e, "..").elements[n] == "..";
    }
  }

  lemma SecondLevelUp(d: Directory, x: seq<string>)
    requires Cleaned(d) && AllPlain(x)
    ensures Descend(Enter(d, ".."), x) == Enter(Enter(d, ".."), "..") <==>
            x == [] && d.absolute && |d.elements| <= 1
  {
    var e := Enter(d, "..");
    ClimbStaysCleaned(d);
    OneLevelUp(e, x, []);
    assert Descend(Enter(e, ".."), []) == Enter(e, "..");
    if d.absolute && EndsUp(d) { CleanedEnds(d); }
  }

  /** `back` leaves the root directory and comes back into it, `stay` never leaves it. */
  predicate ComesBack(root: Directory, stay: Walk, back: Walk) {
    stay == Walk(0, []) && root.elements != [] && back == Walk(1, [root.elements[|root.elements| - 1]])
  }

  /** Both walks end at the same names below the top of the file system. */
  predicate AtTheTop(root: Directory, w: Walk, v: Walk) {
    root.absolute && |root.elements| <= w.up && |root.elements| <= v.up && w.down == v.down
  }

  lemma ClimbTwo(d: Directory)
    ensures Climb(d, 0) == d && Climb(d, 1) == Enter(d, "..") && Climb(d, 2) == Enter(Enter(d, ".."), "..")
    ensures Descend(Climb(d, 2), []) == Climb(d, 2)
  {
    assert Climb(d, 2) == Enter(Climb(d, 1), "..");
  }

  ghost predicate WalksMeet(root: Directory, w: Walk, v: Walk) {
    Descend(Climb(root, w.up), w.down) == Descend(Climb(root, v.up), v.down)
  }

  lemma TopWalkMeets(root: Directory, w: Walk, v: Walk)
    requires Cleaned(root) && AllPlain(w.down) && w.up < 2 && v == Walk(2, [])
    ensures WalksMeet(root, w, v) <==> AtTheTop(root, w, v)
  {
    ClimbTwo(root);
    if w.up == 1 { SecondLevelUp(root, w.down); } else { TwoLevelsUp(root, w.down); }
  }

  lemma HigherWalkMeets(root: Directory, w: Walk, v: Walk)
    requires Cleaned(root) && AllPlain(w.down) && AllPlain(v.down) && w.up < v.up && v.up + |v.down| <= 2
    ensures WalksMeet(root, w, v) <==> AtTheTop(root, w, v) || ComesBack(root, w, v)
  {
    if v.up == 1 {
      ClimbTwo(root);
      OneLevelUp(root, w.down, v.down);
    } else {
      TopWalkMeets(root, w, v);
    }
  }

  /** Two senders share a file exactly when their escaped names lead the same way from the root
      directory, meet at the top of the file system, or one leaves the root directory and comes back. */
  lemma PathsSharedExactly(root: Directory, t1: string, c1: string, t2: string, c2: string)
    requires Cleaned(root)
    ensures var w, v := WalkOf(t1, c1), WalkOf(t2, c2);
            PathOf(root, t1, c1) == PathOf(root, t2, c2) <==>
            w == v || AtTheTop(root, w, v) || ComesBack(root, w, v) || ComesBack(root, v, w)
  {
    var w, v := WalkOf(t1, c1), WalkOf(t2, c2);
    PathIsWalk(root, t1, c1);
    PathIsWalk(root, t2, c2);
    if w.up == v.up {
      SameStart(Climb(root, w.up), w.down, v.down);
    } else if w.up < v.up {
      HigherWalkMeets(root, w, v);
    } else {
      HigherWalkMeets(root, v, w);
    }
  }

  /** Without dot names that is equality of the escaped names, whatever the root directory. */
  lemma PlainPathsSharedExactly(root: Directory, t1: string, c1: string, t2: string, c2: string)
    requires Plain(SafeElement(t1)) && Plain(SafeElement(c1)) && Plain(SafeElement(t2)) && Plain(SafeElement(c2))
    ensures PathOf(root, t1, c1) == PathOf(root, t2, c2) <==>
            SafeElement(t1) == SafeElement(t2) && SafeElement(c1) == SafeElement(c2)
  {
    var n := |root.elements|;
    var p1, p2 := PathOf(root, t1, c1).elements, PathOf(root, t2, c2).elements;
    assert p1[n] == SafeElement(t1) && p1[n + 1] == SafeElement(c1);
    assert p2[n] == SafeElement(t2) && p2[n + 1] == SafeElement(c2);
  }

  /** Clean names never share a checkpoint file. */
  lemma CleanPathsAreDistinct(root: Directory, t1: string, c1: string, t2: string, c2: string)
    requires Clean(t1) && Clean(c1) && Clean(t2) && Clean(c2)
    ensures PathOf(root, t1, c1) == PathOf(root, t2, c2) <==> t1 == t2 && c1 == c2
  {
    CleanIsSafe(t1);
    CleanIsSafe(c1);
    CleanIsSafe(t2);
    CleanIsSafe(c2);
    PlainPathsSharedExactly(root, t1, c1, t2, c2);
  }

  lemma SafeIsStable(s: string)
    ensures SafeElement(SafeElement(s)) == SafeElement(s)
  {
    var t := TrimRight(TrimLeft(s));
    if t != "" {
      var r := Replaced(t);
      assert t[0] == TrimLeft(s)[0];
      assert !IsSpace(r[0]) && !IsSpace(r[|r| - 1]);
      SafeOfTrimmed(r);
      assert Replaced(r) == r;
    }
  }

  /** Every name shares its file with its escaped form, and a dot name with its mirror image: an
      escaped slash, a trimmed space and a dot are enough for two senders to meet. */
  lemma UncleanPathsCollide(root: Directory, tenant: string, cluster: string)
    ensures PathOf(root, tenant, cluster) == PathOf(root, SafeElement(tenant), cluster)
    ensures PathOf(root, ".", cluster) == PathOf(root, cluster, ".")
    ensures PathOf(root, "a/b", cluster) == PathOf(root, "a_b", cluster)
    ensures PathOf(root, "\U{0B}x", cluster) == PathOf(root, "x", cluster)
  {
    SafeIsStable(tenant);
    SafeOfTrimmed(".");
    assert Replaced(".") == ".";
    SafeOfTrimmed("a/b");
    SafeOfTrimmed("a_b");
    assert Replaced("a/b") == "a_b" && Replaced("a_b") == "a_b";
    assert "\U{0B}x"[1..] == "x";
    assert TrimLeft("\U{0B}x") == TrimLeft("x");
  }

  datatype SaveFault = NoFault | Cancelled | NoDirectory | WriteFails | RenameFails

  datatype LoadFault = Readable | Interrupted | Unreadable | Malformed

  class FileCheckpointStore {
    const root: Directory
    var files: map<Directory, nat>
    var temps: map<Directory, nat>

    constructor (root: Directory)
      ensures files == map[] && this.root == root
    {
      this.root := root;
      files, temps := map[], map[];
    }

    /** What the file says; a missing one counts as zero. */
    function Stored(tenant: string, cluster: string): nat
      reads this
    {
      var p := PathOf(root, tenant, cluster);
      if p in files then files[p] else 0
    }

    /** `None` is an error; a file that does not exist cannot be malformed. */
    method Load(tenant: string, cluster: string, fault: LoadFault) returns (n: Option<nat>)
      ensures n == None <==> fault == Interrupted || fault == Unreadable
                             || (fault == Malformed && PathOf(root, tenant, cluster) in files)
      ensures n.Some? ==> n.value == Stored(tenant, cluster)
    {
      if fault == Interrupted || fault == Unreadable { return None; }
      var p := PathOf(root, tenant, cluster);
      if p !in files { return Some(0); }
      if fault == Malformed { return None; }
      return Some(files[p]);
    }

    /** A failed save leaves every checkpoint as it was; a good one replaces exactly one file. */
    method Save(tenant: string, cluster: string, sequence: nat, fault: SaveFault) returns (ok: bool)
      modifies this
      ensures ok <==> fault == NoFault
      ensures !ok ==> files == old(files)
      ensures forall t, c :: Stored(t, c) == if ok && PathOf(root, t, c) == PathOf(root, tenant, cluster)
                                             then sequence else old(Stored(t, c))
    {
      if fault == Cancelled || fault == NoDirectory { return false; }
      var p := PathOf(root, tenant, cluster);
      if fault == WriteFails { return false; }
      temps := temps[p := sequence];
      if fault == RenameFails { return false; }
      files, temps := files[p := temps[p]], temps - {p};
      return true;
    }
  }
}

/** The stream handler: session bookkeeping and what one batch is answered with. */
module IngestionServer {
  import opened Wrappers
  import opened Wire
  import opened AgentClient
  import opened BatchRules
  import opened BatchQueue
  import opened Checkpoints

  /** The share of the capacity at which flow control starts, rounded down but at least one. */
  function HighWatermark(capacity: nat, config: Config): (w: nat)
    ensures w >= 1 && capacity * config.highWatermarkPercent < (w + 1) * 100
    ensures w > 1 ==> w * 100 <= capacity * config.highWatermarkPercent
  {
    var share := capacity * config.highWatermarkPercent / 100;
    if share > 1 then share else 1
  }

  function RetryAck(b: ObservationBatch, persisted: nat, first: nat, last: nat): Frame {
    Ack(b.batchId, b.last, persisted, Some((first, last)), [])
  }

  /** The handler up to the point where it waits: the frames it sends, and what it queued. */
  datatype Begun = Begun(frames: seq<Frame>, accepted: Option<ObservationBatch>)

  function Begin(b: ObservationBatch, persisted: nat, high: bool, archived: bool, room: bool,
                 config: Config, codec: Codec): Begun
  {
    match Admit(b, persisted, config, codec)
    case Refused(_) => Begun([Ack(b.batchId, persisted, persisted, None, RejectionsFor(b))], None)
    case Duplicate => Begun([Ack(b.batchId, b.last, persisted, None, [])], None)
    case Gap(lo, hi) => Begun([RetryAck(b, persisted, lo, hi)], None)
    case Admitted(a) =>
      var flow := if high then [FlowControl] else [];
      if !archived then Begun(flow + [RetryAck(b, persisted, a.first, a.last)], None)
      else if !room then Begun([FlowControl, RetryAck(b, persisted, a.first, a.last)], None)
      else Begun(flow, Some(a))
  }

  /** No answer given before the wait acknowledges more than the watermark, and only a refused
      batch is rejected. */
  lemma BeginAcknowledgesNothingNew(b: ObservationBatch, persisted: nat, high: bool, archived: bool,
                                    room: bool, config: Config, codec: Codec)
    ensures var r := Begin(b, persisted, high, archived, room, config, codec);
            && (forall i :: 0 <= i < |r.frames| ==> !r.frames[i].Hello?)
            && (forall i :: 0 <= i < |r.frames| && r.frames[i].Ack? ==>
                              r.frames[i].persisted == persisted && r.frames[i].batchId == b.batchId)
            && (forall i :: 0 <= i < |r.frames| && r.frames[i].Ack? && r.frames[i].rejections != [] ==>
                              Validate(b, config, codec).Some? && r.frames[i].rejections == RejectionsFor(b))
            && (r.accepted.Some? ==>
               room && archived && Admit(b, persisted, config, codec) == Admitted(r.accepted.value))
  {
  }

  /** What an acknowledgement before the wait says: the watermark, what to send again, what is rejected. */
  ghost predicate AnswersBatch(f: Frame, b: ObservationBatch, persisted: nat, valid: bool) {
    && f.Ack? && f.batchId == b.batchId && f.persisted == persisted
    && f.received == (if valid then b.last else persisted)
    && f.retry == (if !valid || b.last <= persisted then None
                   else if b.first > persisted + 1 then Some((persisted + 1, b.first - 1))
                   else Some((persisted + 1, b.last)))
    && if valid then f.rejections == [] else CoversAll(f.rejections, b)
  }

  /** Every sequence of the batch is rejected for good and no other, or the first if the batch is empty. */
  ghost predicate CoversAll(rejections: seq<Rejection>, b: ObservationBatch) {
    && (forall o :: o in b.observations ==> Rejection(o.sequence, false) in rejections)
    && (b.observations == [] ==> rejections == [Rejection(b.first, false)])
    && forall r :: r in rejections && b.observations != [] ==>
                     !r.retryable && exists o :: o in b.observations && o.sequence == r.sequence
  }

  /** What is queued of a batch: the rest above the watermark, well-made. */
  ghost predicate IsRest(a: ObservationBatch, b: ObservationBatch, persisted: nat, codec: Codec) {
    && Sound(a, codec) && a.batchId == b.batchId && a.first == persisted + 1 && a.last == b.last
    && forall o :: o in a.observations <==> o in b.observations && persisted < o.sequence
  }

  /** Everything the handler does up to its wait. A batch that is well-made, within the limits and
      extends the watermark is queued if it is archived and there is room, without what is already
      stored, and not acknowledged. Every other batch is not queued, and acknowledged once, last of all.
      Flow control goes out at most once: above the high watermark or when there is no room. */
  ghost predicate IsAnswer(b: ObservationBatch, persisted: nat, high: bool, archived: bool, room: bool,
                           config: Config, codec: Codec, frames: seq<Frame>, accepted: Option<ObservationBatch>)
  {
    AnswerFor(b, persisted, Sound(b, codec) && WithinLimits(b, config, codec), high, archived, room, codec, frames,
              accepted)
  }

  ghost predicate AnswerFor(b: ObservationBatch, persisted: nat, valid: bool, high: bool, archived: bool, room: bool,
                            codec: Codec, frames: seq<Frame>, accepted: Option<ObservationBatch>)
  {
    var fits := valid && b.first <= persisted + 1 <= b.last;
    var flow := if fits && (high || (archived && !room)) then [FlowControl] else [];
    && (accepted.Some? <==> fits && archived && room)
    && (accepted.Some? ==> frames == flow && IsRest(accepted.value, b, persisted, codec))
    && (accepted.None? ==>
          && |frames| == |flow| + 1 && frames[..|flow|] == flow && AnswersBatch(frames[|flow|], b, persisted, valid))
  }

  lemma RejectionsCover(b: ObservationBatch)
    ensures CoversAll(RejectionsFor(b), b)
  {
    var rejections := RejectionsFor(b);
    forall o | o in b.observations ensures Rejection(o.sequence, false) in rejections {
      var i :| 0 <= i < |b.observations| && b.observations[i] == o;
      assert rejections[i] == Rejection(o.sequence, false);
    }
    forall r | r in rejections && b.observations != []
      ensures !r.retryable && exists o :: o in b.observations && o.sequence == r.sequence {
      var i :| 0 <= i < |rejections| && rejections[i] == r;
      assert b.observations[i] in b.observations && b.observations[i].sequence == r.sequence;
    }
  }

  lemma RestIsQueued(b: ObservationBatch, persisted: nat, config: Config, codec: Codec)
    requires Admit(b, persisted, config, codec).Admitted?
    ensures IsRest(Admit(b, persisted, config, codec).accepted, b, persisted, codec)
  {
    AdmissionIsGapFree(b, persisted, config, codec);
  }

  lemma AnsweredByFault(b: ObservationBatch, persisted: nat, high: bool, archived: bool, room: bool,
                        config: Config, codec: Codec)
    ensures var r := Begin(b, persisted, high, archived, room, config, codec);
            AnswerFor(b, persisted, Validate(b, config, codec) == None, high, archived, room, codec, r.frames,
                      r.accepted)
  {
    RejectionsCover(b);
    if Admit(b, persisted, config, codec).Admitted? { RestIsQueued(b, persisted, config, codec); }
  }

  /** The handler answers every batch exactly so. */
  lemma BeginAnswers(b: ObservationBatch, persisted: nat, high: bool, archived: bool, room: bool,
                     config: Config, codec: Codec)
    ensures var r := Begin(b, persisted, high, archived, room, config, codec);
            IsAnswer(b, persisted, high, archived, room, config, codec, r.frames, r.accepted)
  {
    ValidateExactly(b, config, codec);
    AnsweredByFault(b, persisted, high, archived, room, config, codec);
  }

  const NUL: char := '\0'

  /** The server files a stream under tenant and cluster joined by a NUL. */
  function ClusterKey(tenant: string, cluster: string): string {
    tenant + "\0" + cluster
  }

  /** Another sender under the same key. */
  predicate Twin(t: string, c: string, tenant: string, cluster: string) {
    (t, c) != (tenant, cluster) && ClusterKey(t, c) == ClusterKey(tenant, cluster)
  }

  /** Some other sender has the same key exactly when a NUL occurs in one of the two names. */
  lemma KeySharedExactly(tenant: string, cluster: string)
    ensures (exists t, c :: Twin(t, c, tenant, cluster)) <==> NUL in tenant || NUL in cluster
  {
    if i :| 0 <= i < |tenant| && tenant[i] == NUL { NulMakesTwin(tenant, cluster, i); }
    if i :| 0 <= i < |cluster| && cluster[i] == NUL { NulMakesTwin(tenant, cluster, |tenant| + 1 + i); }
    forall t, c | Twin(t, c, tenant, cluster) ensures NUL in tenant || NUL in cluster {
      OtherSplitHasNul(tenant, cluster, t, c);
    }
  }

  lemma NulMakesTwin(tenant: string, cluster: string, i: nat)
    requires i < |ClusterKey(tenant, cluster)| && ClusterKey(tenant, cluster)[i] == NUL && i != |tenant|
    ensures exists t, c :: Twin(t, c, tenant, cluster)
  {
    var key := ClusterKey(tenant, cluster);
    assert key == key[..i] + "\0" + key[i + 1..];
    assert Twin(key[..i], key[i + 1..], tenant, cluster);
  }

  lemma OtherSplitHasNul(t1: string, c1: string, t2: string, c2: string)
    requires ClusterKey(t1, c1) == ClusterKey(t2, c2)
    ensures (t1, c1) == (t2, c2) || NUL in t1 || NUL in c1
  {
    var key := ClusterKey(t1, c1);
    assert key[|t2|] == NUL;
    if |t1| == |t2| {
      assert t1 == key[..|t1|] && c1 == key[|t1| + 1..];
      assert t2 == key[..|t2|] && c2 == key[|t2| + 1..];
    } else if |t2| < |t1| {
      assert t1[|t2|] == NUL;
    } else {
      assert c1[|t2| - |t1| - 1] == NUL;
    }
  }

  datatype ClusterState = ClusterState(persistedThrough: nat, loaded: bool)

  datatype Acquired = LoadFailed | Busy | Acquired(persistedThrough: nat)

  datatype Waiting = Answered | Waiting(accepted: ObservationBatch, queued: Batch)

  class Server {
    const config: Config
    const codec: Codec
    const queue: Queue
    const checkpoints: FileCheckpointStore
    var clusters: map<string, ClusterState>
    var active: map<string, nat>

    constructor (config: Config, codec: Codec, queue: Queue, checkpoints: FileCheckpointStore)
      ensures clusters == map[] && active == map[]
      ensures this.queue == queue && this.checkpoints == checkpoints
      ensures Valid()
    {
      this.config, this.codec, this.queue, this.checkpoints := config, codec, queue, checkpoints;
      clusters, active := map[], map[];
    }

    /** A stream is only ever active over a loaded watermark. */
    ghost predicate Valid()
      reads this
    {
      forall k :: k in active ==> k in clusters && clusters[k].loaded
    }

    /** One stream per key; the checkpoint is read once per process and key, from the file of
        whoever connects first. */
    method Acquire(tenant: string, cluster: string, session: nat, fault: LoadFault) returns (r: Acquired)
      requires Valid()
      modifies this
      ensures Valid()
      ensures var key := ClusterKey(tenant, cluster);
              key in old(active) ==> r == Busy && active == old(active) && clusters == old(clusters)
      ensures var key := ClusterKey(tenant, cluster);
              key !in old(active) ==>
                var known := key in old(clusters) && old(clusters)[key].loaded;
                if r == LoadFailed then !known && fault != Readable && active == old(active)
                else && active == old(active)[key := session]
                     && r == Acquired(if known then old(clusters)[key].persistedThrough
                                      else checkpoints.Stored(tenant, cluster))
                     && clusters[key] == ClusterState(r.persistedThrough, true)
      ensures forall k :: k != ClusterKey(tenant, cluster) ==> (k in clusters <==> k in old(clusters))
      ensures forall k :: k != ClusterKey(tenant, cluster) && k in clusters ==> clusters[k] == old(clusters)[k]
    {
      var key := ClusterKey(tenant, cluster);
      if key in active { return Busy; }
      if key !in clusters { clusters := clusters[key := ClusterState(0, false)]; }
      if !clusters[key].loaded {
        var loaded := checkpoints.Load(tenant, cluster, fault);
        if loaded == None { return LoadFailed; }
        clusters := clusters[key := ClusterState(loaded.value, true)];
      }
      active := active[key := session];
      return Acquired(clusters[key].persistedThrough);
    }

    /** Only the session that holds the stream gives it up. */
    method Release(tenant: string, cluster: string, session: nat)
      requires Valid()
      modifies this`active
      ensures Valid()
      ensures var key := ClusterKey(tenant, cluster);
              active == if key in old(active) && old(active)[key] == session then old(active) - {key} else old(active)
    {
      var key := ClusterKey(tenant, cluster);
      if key in active && active[key] == session { active := active - {key}; }
    }

    /** `handleBatch` up to its wait, for the stream that holds the key. */
    method BeginBatch(tenant: string, cluster: string, batch: ObservationBatch, receivedAt: int, archived: bool)
      returns (frames: seq<Frame>, wait: Waiting)
      requires Valid() && ClusterKey(tenant, cluster) in active && queue.capacity >= 0
      modifies queue
      ensures var persisted := clusters[ClusterKey(tenant, cluster)].persistedThrough;
              var high := |old(queue.items)| >= HighWatermark(queue.capacity, config);
              var room := old(HasRoom(queue.State()));
              var begun := Begin(batch, persisted, high, archived, room, config, codec);
              && frames == begun.frames
              && (begun.accepted == None ==> wait == Answered && queue.State() == old(queue.State()))
              && (begun.accepted.Some? ==>
                  && wait.Waiting? && wait.accepted == begun.accepted.value
                  && wait.queued.envelope == Envelope(tenant, cluster, receivedAt, wait.accepted)
                  && wait.queued.persisted.Some? && fresh(wait.queued.persisted.value)
                  && !wait.queued.persisted.value.closed
                  && queue.State() == AfterEnqueue(old(queue.State()), wait.queued))
      ensures var persisted := clusters[ClusterKey(tenant, cluster)].persistedThrough;
              var high := |old(queue.items)| >= HighWatermark(queue.capacity, config);
              IsAnswer(batch, persisted, high, archived, old(HasRoom(queue.State())), config, codec, frames,
                       if wait.Waiting? then Some(wait.accepted) else None)
    {
      BeginAnswers(batch, clusters[ClusterKey(tenant, cluster)].persistedThrough,
                   |queue.items| >= HighWatermark(queue.capacity, config), archived, HasRoom(queue.State()),
                   config, codec);
      var persisted := clusters[ClusterKey(tenant, cluster)].persistedThrough;
      var fault := Validate(batch, config, codec);
      if fault.Some? {
        return [Ack(batch.batchId, persisted, persisted, None, RejectionsFor(batch))], Answered;
      }
      if batch.last <= persisted {
        return [Ack(batch.batchId, batch.last, persisted, None, [])], Answered;
      }
      if batch.first > persisted + 1 {
        return [RetryAck(batch, persisted, persisted + 1, batch.first - 1)], Answered;
      }
      var accepted := SuffixAfter(batch, persisted, codec);
      frames := [];
      if |queue.items| >= HighWatermark(queue.capacity, config) { frames := [FlowControl]; }
      if !archived {
        return frames + [RetryAck(batch, persisted, accepted.first, accepted.last)], Answered;
      }
      var signal := new Signal();
      var queued := Batch.Batch(Envelope(tenant, cluster, receivedAt, accepted), Some(signal));
      var ok := queue.TryEnqueue(queued);
      if !ok {
        if frames == [] { frames := [FlowControl]; }
        return frames + [RetryAck(batch, persisted, accepted.first, accepted.last)], Answered;
      }
      return frames, Waiting(accepted, queued);
    }

    /** `handleBatch` after the notification: the watermark moves only once the checkpoint is saved. */
    method FinishBatch(tenant: string, cluster: string, batch: ObservationBatch, accepted: ObservationBatch,
                       fault: SaveFault) returns (frame: Frame)
      requires Valid() && ClusterKey(tenant, cluster) in active
      modifies this`clusters, checkpoints
      ensures Valid()
      ensures fault != NoFault ==>
                && clusters == old(clusters) && checkpoints.files == old(checkpoints.files)
                && frame == Ack(batch.batchId, batch.last, old(clusters)[ClusterKey(tenant, cluster)].persistedThrough,
                                Some((accepted.first, accepted.last)), [])
      ensures fault == NoFault ==>
                && clusters == old(clusters)[ClusterKey(tenant, cluster) := ClusterState(batch.last, true)]
                && checkpoints.Stored(tenant, cluster) == batch.last
                && frame == Ack(batch.batchId, batch.last, batch.last, None, [])
    {
      var key := ClusterKey(tenant, cluster);
      var ok := checkpoints.Save(tenant, cluster, batch.last, fault);
      if !ok {
        return RetryAck(batch, clusters[key].persistedThrough, accepted.first, accepted.last);
      }
      clusters := clusters[key := clusters[key].(persistedThrough := batch.last)];
      return Ack(batch.batchId, batch.last, clusters[key].persistedThrough, None, []);
    }
  }
}
