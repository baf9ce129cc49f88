/** Opening a project path by walking it one component at a time below an open root
    directory, following symbolic links without ever leaving that directory. */
module PathWalk {
  import opened Base

  const MAX_LINKS := 40

  type Name = string

  /** A path text split at its separators; an absolute one starts at the file system's
      root. The pieces may be empty, "." or "..". */
  datatype Path = Path(absolute: bool, parts: seq<Name>)

  /** A static file tree. */
  datatype Node =
    | Regular(size: nat)
    | Directory(children: map<Name, Node>)
    | Symlink(target: Path)
    | Special

  datatype Error = Invalid | Escapes | Missing | TooManyLinks | NotADirectory | NotRegular | TooLarge

  // ------------------------------------------------------------------
  // Lexical cleaning
  // ------------------------------------------------------------------

  predicate IsName(part: Name) { part != "" && part != "." && part != ".." }

  /** One more part behind an already clean path. */
  function Push(absolute: bool, done: seq<Name>, part: Name): seq<Name> {
    if part == "" || part == "." then done
    else if part != ".." then done + [part]
    else if done != [] && done[|done| - 1] != ".." then done[..|done| - 1]
    else if absolute then done
    else done + [part]
  }

  function Clean(absolute: bool, parts: seq<Name>): seq<Name> {
    if parts == [] then []
    else Push(absolute, Clean(absolute, parts[..|parts| - 1]), parts[|parts| - 1])
  }

  /** A clean path is some ".." followed by plain names; an absolute one has no "..". */
  predicate IsClean(absolute: bool, parts: seq<Name>) {
    && (forall part <- parts :: IsName(part) || (part == ".." && !absolute))
    && (forall i, j :: 0 <= i < j < |parts| && parts[j] == ".." ==> parts[i] == "..")
  }

  lemma {:induction false} CleanIsClean(absolute: bool, parts: seq<Name>)
    ensures IsClean(absolute, Clean(absolute, parts))
  {
    if parts != [] {
      CleanIsClean(absolute, parts[..|parts| - 1]);
    }
  }

  lemma CleanEndsWell(absolute: bool, parts: seq<Name>)
    ensures var done := Clean(absolute, parts);
            done != [] ==> IsName(done[|done| - 1]) || (done[|done| - 1] == ".." && !absolute)
  {
    CleanIsClean(absolute, parts);
    var done := Clean(absolute, parts);
    assert done != [] ==> done[|done| - 1] in done;
  }

  lemma {:induction false} CleanKeepsClean(absolute: bool, parts: seq<Name>)
    requires IsClean(absolute, parts)
    ensures Clean(absolute, parts) == parts
  {
    if parts != [] {
      var init, last := parts[..|parts| - 1], parts[|parts| - 1];
      assert parts == init + [last];
      assert forall part <- init :: part in parts;
      assert forall i :: 0 <= i < |init| ==> init[i] == parts[i];
      assert last in parts && parts[|init|] == last;
      CleanKeepsClean(absolute, init);
    }
  }

  /** The parts below `root` of a clean absolute path, if it is under it. */
  function Below(root: seq<Name>, clean: seq<Name>): Option<seq<Name>> {
    if root <= clean then Some(clean[|root|..]) else None
  }

  predicate HasNul(path: Path) {
    exists part <- path.parts :: '\0' in part
  }

  lemma NulsAreFound(path: Path)
    ensures HasNul(path) <==> exists part <- path.parts :: '\0' in part
  {
  }

  /** A requested path relative to the root, however it was written. */
  function RelativePath(root: seq<Name>, path: Path): Option<seq<Name>> {
    if path.absolute then Below(root, Clean(true, path.parts))
    else Below(root, Clean(true, root + Clean(false, path.parts)))
  }

  /** The path's text names a place below the root, or is refused: an absolute one as it
      stands, a relative one behind the root. */
  lemma WherePathsStart(root: seq<Name>, path: Path)
    ensures var whole := Clean(true, if path.absolute then path.parts else root + Clean(false, path.parts));
            && (RelativePath(root, path).None? <==> !(root <= whole))
            && (RelativePath(root, path).Some? ==> root + RelativePath(root, path).value == whole)
  {
  }

  // ------------------------------------------------------------------
  // The tree
  // ------------------------------------------------------------------

  function NodeAt(node: Node, names: seq<Name>): Option<Node> {
    if names == [] then Some(node)
    else if node.Directory? && names[0] in node.children then NodeAt(node.children[names[0]], names[1..])
    else None
  }

  lemma {:induction false} NodeAtChild(node: Node, names: seq<Name>, name: Name)
    ensures NodeAt(node, names + [name]) ==
            match NodeAt(node, names)
            case Some(Directory(children)) => if name in children then Some(children[name]) else None
            case _ => None
  {
    if names == [] {
      assert [name][1..] == [];
    } else {
      assert (names + [name])[1..] == names[1..] + [name];
      if node.Directory? && names[0] in node.children {
        NodeAtChild(node.children[names[0]], names[1..], name);
      }
    }
  }

  // ------------------------------------------------------------------
  // The specification: resolve a path the obvious way
  // ------------------------------------------------------------------

  /** Where a path leads, as names below the root, and how many links may still be
      followed. */
  datatype Walk = Reached(at: seq<Name>, links: nat) | Failed(error: Error)

  /** Where a link starts and what is left to walk from there. */
  function LinkParts(root: seq<Name>, target: Path): Option<seq<Name>> {
    if target.absolute then Below(root, Clean(true, target.parts)) else Some(Clean(false, target.parts))
  }

  /** An absolute target leads below the root or nowhere; a relative one is walked from
      where the link is. */
  lemma WhereLinksLead(root: seq<Name>, target: Path)
    ensures target.absolute ==>
              && (LinkParts(root, target).None? <==> !(root <= Clean(true, target.parts)))
              && (LinkParts(root, target).Some? ==> root + LinkParts(root, target).value == Clean(true, target.parts))
    ensures !target.absolute ==> LinkParts(root, target) == Some(Clean(false, target.parts))
  {
  }

  /** Each link is resolved by itself to the place it names, and the rest of the path
      continues there. */
  function Resolve(tree: Node, root: seq<Name>, at: seq<Name>, parts: seq<Name>, links: nat): (w: Walk)
    ensures w.Reached? ==> w.links <= links
    decreases links, |parts|
  {
    if parts == [] then Reached(at, links)
    else
      match NodeAt(tree, at)
      case Some(Directory(children)) =>
        var part, rest := parts[0], parts[1..];
        if part == "" || part == "." then Resolve(tree, root, at, rest, links)
        else if part == ".." then
          if at == [] then Failed(Escapes) else Resolve(tree, root, at[..|at| - 1], rest, links)
        else if part !in children then Failed(Missing)
        else if !children[part].Symlink? then Resolve(tree, root, at + [part], rest, links)
        else if links == 0 then Failed(TooManyLinks)
        else
          var target := children[part].target;
          var linked := LinkParts(root, target);
          if linked.None? then Failed(Escapes)
          else
            var end := Resolve(tree, root, if target.absolute then [] else at, linked.value, links - 1);
            if end.Failed? then end else Resolve(tree, root, end.at, rest, end.links)
      case _ => Failed(NotADirectory)
  }

  /** A walk continued. */
  function Then(tree: Node, root: seq<Name>, walk: Walk, parts: seq<Name>): Walk {
    if walk.Failed? then walk else Resolve(tree, root, walk.at, parts, walk.links)
  }

  /** Walking two paths in a row is walking their concatenation. */
  lemma {:induction false} ResolveInSteps(tree: Node, root: seq<Name>, at: seq<Name>, first: seq<Name>,
          second: seq<Name>, links: nat)
    ensures Resolve(tree, root, at, first + second, links) == Then(tree, root, Resolve(tree, root, at, first, links), second)
    decreases links, |first|
  {
    if first == [] {
      assert first + second == second;
    } else {
      assert (first + second)[1..] == first[1..] + second;
      var part := first[0];
      var place := NodeAt(tree, at);
      if place.Some? && place.value.Directory? {
        if part == "" || part == "." {
          ResolveInSteps(tree, root, at, first[1..], second, links);
        } else if part == ".." {
          if at != [] {
            ResolveInSteps(tree, root, at[..|at| - 1], first[1..], second, links);
          }
        } else if part in place.value.children {
          var child := place.value.children[part];
          if !child.Symlink? {
            ResolveInSteps(tree, root, at + [part], first[1..], second, links);
          } else if links > 0 && LinkParts(root, child.target).Some? {
            var end := Resolve(tree, root, if child.target.absolute then [] else at, LinkParts(root, child.target).value, links - 1);
            if end.Reached? {
              ResolveInSteps(tree, root, end.at, first[1..], second, end.links);
            }
          }
        }
      }
    }
  }

  /** A walk from a place that is not a link ends at a node below the root that is not a link. */
  lemma {:induction false} ResolveReachesANode(tree: Node, root: seq<Name>, at: seq<Name>, parts: seq<Name>, links: nat)
    requires NodeAt(tree, at).Some? && !NodeAt(tree, at).value.Symlink?
    requires Resolve(tree, root, at, parts, links).Reached?
    ensures var end := Resolve(tree, root, at, parts, links).at;
            NodeAt(tree, end).Some? && !NodeAt(tree, end).value.Symlink?
    decreases links, |parts|
  {
    if parts != [] {
      var part, rest, children := parts[0], parts[1..], NodeAt(tree, at).value.children;
      if part == "" || part == "." {
        ResolveReachesANode(tree, root, at, rest, links);
      } else if part == ".." {
        ParentIsADirectory(tree, at);
        ResolveReachesANode(tree, root, at[..|at| - 1], rest, links);
      } else if !children[part].Symlink? {
        NodeAtChild(tree, at, part);
        ResolveReachesANode(tree, root, at + [part], rest, links);
      } else {
        var target := children[part].target;
        var start := if target.absolute then [] else at;
        TopIsADirectory(tree, at);
        ResolveReachesANode(tree, root, start, LinkParts(root, target).value, links - 1);
        var end := Resolve(tree, root, start, LinkParts(root, target).value, links - 1);
        ResolveReachesANode(tree, root, end.at, rest, end.links);
      }
    }
  }

  lemma ParentIsADirectory(tree: Node, at: seq<Name>)
    requires at != [] && NodeAt(tree, at).Some?
    ensures NodeAt(tree, at[..|at| - 1]).Some? && NodeAt(tree, at[..|at| - 1]).value.Directory?
  {
    assert at == at[..|at| - 1] + [at[|at| - 1]];
    NodeAtChild(tree, at[..|at| - 1], at[|at| - 1]);
  }

  lemma TopIsADirectory(tree: Node, at: seq<Name>)
    requires NodeAt(tree, at).Some? && NodeAt(tree, at).value.Directory?
    ensures tree.Directory?
  {
  }

  lemma OneNameWithoutLinks(tree: Node, root: seq<Name>, at: seq<Name>, part: Name)
    requires Resolve(tree, root, at, [part], 0).Reached?
    ensures IsName(part) ==> Resolve(tree, root, at, [part], 0) == Reached(at + [part], 0)
    ensures part == ".." ==> at != [] && Resolve(tree, root, at, [part], 0) == Reached(at[..|at| - 1], 0)
    ensures part == "" || part == "." ==> Resolve(tree, root, at, [part], 0) == Reached(at, 0)
  {
    assert [part][1..] == [];
  }

  /** Cleaning a path lexically does not change where it leads when the walk meets no
      link: `links` is zero, so a reached place was reached without one. */
  lemma {:induction false} CleaningKeepsLinklessWalks(tree: Node, root: seq<Name>, absolute: bool, at: seq<Name>,
          parts: seq<Name>)
    requires absolute ==> at == []
    requires Resolve(tree, root, at, parts, 0).Reached?
    ensures Resolve(tree, root, at, Clean(absolute, parts), 0) == Resolve(tree, root, at, parts, 0)
  {
    if parts != [] {
      hide Resolve, NodeAt, IsClean;
      var init, last := parts[..|parts| - 1], parts[|parts| - 1];
      assert parts == init + [last];
      ResolveInSteps(tree, root, at, init, [last], 0);
      CleaningKeepsLinklessWalks(tree, root, absolute, at, init);
      var done := Clean(absolute, init);
      var middle := Resolve(tree, root, at, done, 0).at;
      ResolveInSteps(tree, root, at, done, [last], 0);
      CleanEndsWell(absolute, init);
      OneNameWithoutLinks(tree, root, middle, last);
      if last == ".." && done != [] && done[|done| - 1] != ".." {
        var front, name := done[..|done| - 1], done[|done| - 1];
        assert done == front + [name];
        ResolveInSteps(tree, root, at, front, [name], 0);
        var before := Resolve(tree, root, at, front, 0).at;
        OneNameWithoutLinks(tree, root, before, name);
        assert middle[..|middle| - 1] == before;
      }
    }
  }

  // ------------------------------------------------------------------
  // The descriptor walk
  // ------------------------------------------------------------------

  datatype Result = Opened(node: Node) | Refused(error: Error)

  /** Opening as the specification has it: a directory, or a regular file within the
      size limit. */
  function OpenedAs(tree: Node, root: seq<Name>, path: Path, limit: nat, directory: bool): Result {
    if HasNul(path) then Refused(Invalid)
    else
    match RelativePath(root, path)
    case None => Refused(Escapes)
    case Some(relative) =>
      if relative == [] && !directory then Refused(NotRegular)
      else
        match Resolve(tree, root, [], relative, MAX_LINKS)
        case Failed(error) => Refused(error)
        case Reached(at, _) => Admit(NodeAt(tree, at), limit, directory)
  }

  function Admit(node: Option<Node>, limit: nat, directory: bool): Result {
    match node
    case Some(Directory(_)) => if directory then Opened(node.value) else Refused(NotRegular)
    case Some(Regular(size)) =>
      if directory then Refused(NotADirectory)
      else if size > limit then Refused(TooLarge)
      else Opened(node.value)
    case _ => if directory then Refused(NotADirectory) else Refused(NotRegular)
  }

  /** The open descriptors are a chain of directories, each the child of the one before,
      and the first is the root. */
  ghost predicate Chain(tree: Node, stack: seq<Node>, names: seq<Name>) {
    && |stack| == |names| + 1
    && stack[0] == tree
    && (forall k :: 0 <= k < |stack| ==> stack[k].Directory?)
    && (forall k :: 0 <= k < |names| ==> names[k] in stack[k].children && stack[k + 1] == stack[k].children[names[k]])
  }

  lemma {:induction false} ChainTop(tree: Node, stack: seq<Node>, names: seq<Name>)
    requires Chain(tree, stack, names)
    ensures NodeAt(tree, names) == Some(stack[|names|])
  {
    if names != [] {
      var n := |names| - 1;
      ChainTop(tree, stack[..n + 1], names[..n]);
      NodeAtChild(tree, names[..n], names[n]);
      assert names == names[..n] + [names[n]];
    }
  }

  /** Opens the path by a walk over descriptors. A link's target is put in front of what
      is left of the path; an absolute one below the root restarts there. */
  method OpenProjectPath(tree: Node, root: seq<Name>, path: Path, limit: nat, directory: bool)
      returns (result: Result, ghost at: seq<Name>)
    requires tree.Directory?
    ensures result == OpenedAs(tree, root, path, limit, directory)
    ensures result.Opened? ==>
              && NodeAt(tree, at) == Some(result.node)
              && (if directory then result.node.Directory? else result.node.Regular? && result.node.size <= limit)
    ensures (exists part <- path.parts :: '\0' in part) ==> result == Refused(Invalid)
  {
    hide HasNul, RelativePath, LinkParts;
    NulsAreFound(path);
    at := [];
    if HasNul(path) {
      return Refused(Invalid), at;
    }
    var relative := RelativePath(root, path);
    if relative.None? {
      return Refused(Escapes), at;
    }
    var pending := relative.value;
    if pending == [] {
      return if directory then Opened(tree) else Refused(NotRegular), at;
    }
    var stack, links := [tree], 0;
    ghost var goal := Resolve(tree, root, [], pending, MAX_LINKS);
    while pending != []
      invariant Chain(tree, stack, at) && links <= MAX_LINKS
      invariant goal == Resolve(tree, root, at, pending, MAX_LINKS - links)
      decreases MAX_LINKS - links, |pending|
    {
      ChainTop(tree, stack, at);
      ghost var whole := pending;
      var component := pending[0];
      pending := pending[1..];
      if component == "" || component == "." {
        continue;
      }
      if component == ".." {
        if |stack| == 1 {
          return Refused(Escapes), at;
        }
        stack := stack[..|stack| - 1];
        at := at[..|at| - 1];
        continue;
      }
      var parent := stack[|stack| - 1];
      if component !in parent.children {
        return Refused(Missing), at;
      }
      var entry := parent.children[component];
      NodeAtChild(tree, at, component);
      if entry.Symlink? {
        links := links + 1;
        if links > MAX_LINKS {
          return Refused(TooManyLinks), at;
        }
        var target := LinkParts(root, entry.target);
        if target.None? {
          return Refused(Escapes), at;
        }
        ghost var start := if entry.target.absolute then [] else at;
        ResolveInSteps(tree, root, start, target.value, pending, MAX_LINKS - links);
        if entry.target.absolute {
          stack := stack[..1];
        }
        at := start;
        pending := target.value + pending;
        continue;
      }
      if pending == [] {
        at := at + [component];
        return Admit(Some(entry), limit, directory), at;
      }
      if !entry.Directory? {
        return Refused(NotADirectory), at;
      }
      stack := stack + [entry];
      at := at + [component];
    }
    ChainTop(tree, stack, at);
    return Admit(Some(stack[|stack| - 1]), limit, directory), at;
  }
}
