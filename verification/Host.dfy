/** The node's directory tree and mount table, with an arbitrary answer for every system
    call. `mounts` counts how often each path is mounted; `passwords` are the paths whose
    topmost mount holds a password file. */
module Host {
  import opened Text

  /** What stat answers instead of the truth: a broken transport, or another error. */
  datatype StatFault = NoFault | BrokenTransport | OtherError

  /** The `mountpoint` command: its verdict, and whether it exited non-zero or unparsably. */
  datatype MountCheck = MountCheck(isMount: bool, failed: bool)

  /** One answer serves any call; `touched` is what a failing one managed before it failed. */
  datatype Answer = Answer(ok: bool, stat: StatFault, check: MountCheck, touched: set<string>)

  datatype Node = Node(dirs: set<string>, mounts: multiset<string>, passwords: set<string>,
                       answers: nat -> Answer, clock: nat)

  predicate AtOrBelow(q: string, p: string) {
    q == p || HasPrefix(q, p + "/")
  }

  function Ancestors(p: string): set<string> {
    set i | 0 < i < |p| && p[i] == '/' :: p[..i]
  }

  function Now(n: Node): Answer {
    n.answers(n.clock)
  }

  function Tick(n: Node): Node {
    n.(clock := n.clock + 1)
  }

  /** pathExists: found, and whether an error came with it. */
  function PathExists(n: Node, p: string): (Node, bool, bool) {
    if p == "" then (n, false, true)
    else match Now(n).stat
      case NoFault => (Tick(n), p in n.dirs, false)
      case BrokenTransport => (Tick(n), true, true)
      case OtherError => (Tick(n), false, true)
  }

  /** A plain stat: present, and whether it failed other than by absence. */
  function Stat(n: Node, p: string): (Node, bool, bool) {
    (Tick(n), Now(n).stat.NoFault? && p in n.dirs, !Now(n).stat.NoFault?)
  }

  function CheckMount(n: Node): (Node, MountCheck) {
    (Tick(n), Now(n).check)
  }

  function Umount(n: Node, p: string): (Node, bool) {
    if Now(n).ok && n.mounts[p] > 0 then
      (Tick(n).(mounts := n.mounts - multiset{p}, passwords := n.passwords - {p}), true)
    else (Tick(n), false)
  }

  predicate Busy(n: Node, p: string) {
    exists q :: q in n.mounts && AtOrBelow(q, p)
  }

  /** Removing a tree succeeds only if nothing is mounted at or below it; otherwise some of
      its contents may be gone, never the root itself nor anything that carries a mount. */
  function RemoveAll(n: Node, p: string): (Node, bool) {
    if Now(n).ok && !Busy(n, p) then
      (Tick(n).(dirs := (set q | q in n.dirs && !AtOrBelow(q, p)),
                passwords := (set q | q in n.passwords && !AtOrBelow(q, p))), true)
    else
      (Tick(n).(dirs := (set q | q in n.dirs && !(q != p && AtOrBelow(q, p) && q in Now(n).touched && !Busy(n, q))),
                passwords := (set q | q in n.passwords && !(AtOrBelow(q, p) && q in Now(n).touched))), false)
  }

  function MkdirAll(n: Node, p: string): (Node, bool) {
    if Now(n).ok && p != "" then (Tick(n).(dirs := n.dirs + Ancestors(p) + {p}), true)
    else (Tick(n).(dirs := n.dirs + Ancestors(p) * Now(n).touched), false)
  }

  /** The tmpfs mount and the s3fs command alike: one more mount on an existing directory. */
  function MountOn(n: Node, p: string): (Node, bool) {
    if Now(n).ok && p in n.dirs then (Tick(n).(mounts := n.mounts + multiset{p}), true) else (Tick(n), false)
  }

  function WritePassword(n: Node, p: string): (Node, bool) {
    (Tick(n).(passwords := if Now(n).ok || p in Now(n).touched then n.passwords + {p} else n.passwords), Now(n).ok)
  }

  /** Any other file written outside the data root. */
  function WriteFile(n: Node): (Node, bool) {
    (Tick(n), Now(n).ok)
  }

  class Kernel {
    var node: Node

    constructor (node: Node)
      ensures this.node == node
    {
      this.node := node;
    }

    method Exists(p: string) returns (found: bool, err: bool)
      modifies this
      ensures (node, found, err) == PathExists(old(node), p)
    {
      var (after, f, e) := PathExists(node, p);
      node, found, err := after, f, e;
    }

    method StatPath(p: string) returns (present: bool, err: bool)
      modifies this
      ensures (node, present, err) == Stat(old(node), p)
    {
      var (after, f, e) := Stat(node, p);
      node, present, err := after, f, e;
    }

    method Check() returns (c: MountCheck)
      modifies this
      ensures (node, c) == CheckMount(old(node))
    {
      var (after, r) := CheckMount(node);
      node, c := after, r;
    }

    method Unmount(p: string) returns (ok: bool)
      modifies this
      ensures (node, ok) == Umount(old(node), p)
    {
      var (after, r) := Umount(node, p);
      node, ok := after, r;
    }

    method Remove(p: string) returns (ok: bool)
      modifies this
      ensures (node, ok) == RemoveAll(old(node), p)
    {
      var (after, r) := RemoveAll(node, p);
      node, ok := after, r;
    }

    method Mkdir(p: string) returns (ok: bool)
      modifies this
      ensures (node, ok) == MkdirAll(old(node), p)
    {
      var (after, r) := MkdirAll(node, p);
      node, ok := after, r;
    }

    method Mount(p: string) returns (ok: bool)
      modifies this
      ensures (node, ok) == MountOn(old(node), p)
    {
      var (after, r) := MountOn(node, p);
      node, ok := after, r;
    }

    method PutPassword(p: string) returns (ok: bool)
      modifies this
      ensures (node, ok) == WritePassword(old(node), p)
    {
      var (after, r) := WritePassword(node, p);
      node, ok := after, r;
    }

    method PutFile() returns (ok: bool)
      modifies this
      ensures (node, ok) == WriteFile(old(node))
    {
      var (after, r) := WriteFile(node);
      node, ok := after, r;
    }
  }
}
