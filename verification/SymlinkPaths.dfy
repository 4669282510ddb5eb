/** Path components the way std::path reads them on Unix, and the two checks that keep paths inside a folder. */
module SymlinkPaths {
  import opened Common

  datatype Component = RootDir | CurDir | ParentDir | Normal(name: string)

  datatype PathError = PathEscape(path: string)

  // ---------------------------------------------------------------- components

  /** The text before the first separator. */
  function FirstPart(s: string): (part: string)
    ensures |part| <= |s|
  {
    if s == "" || s[0] == '/' then "" else [s[0]] + FirstPart(s[1..])
  }

  /** The text after the first separator, if there is one. */
  function AfterFirst(s: string): (rest: Option<string>)
    ensures rest.Some? ==> |rest.value| < |s|
  {
    var part := FirstPart(s);
    if |part| < |s| then Some(s[|part| + 1..]) else None
  }

  /** Empty parts and "." vanish, except for a "." that opens a relative path. */
  function PartComponents(part: string, opening: bool): seq<Component> {
    if part == "" then []
    else if part == "." then if opening then [CurDir] else []
    else if part == ".." then [ParentDir]
    else [Normal(part)]
  }

  function RelativeComponents(s: string, opening: bool): seq<Component>
    decreases |s|
  {
    var here := PartComponents(FirstPart(s), opening);
    match AfterFirst(s)
    case None => here
    case Some(rest) => here + RelativeComponents(rest, false)
  }

  predicate IsAbsolute(s: string) {
    s != "" && s[0] == '/'
  }

  /** Path::components. */
  function Components(s: string): seq<Component> {
    if IsAbsolute(s) then [RootDir] + RelativeComponents(s[1..], false) else RelativeComponents(s, true)
  }

  predicate AllNormal(cs: seq<Component>) {
    forall i :: 0 <= i < |cs| ==> cs[i].Normal?
  }

  /** validate_relative_path: nothing but ordinary names. */
  predicate ValidRelative(s: string) {
    s != "" && !IsAbsolute(s) && AllNormal(Components(s))
  }

  // ---------------------------------------------------------------- resolution

  /** Lexical resolution on a stack of names; None once it climbs above the bottom. */
  function Resolve(stack: seq<string>, cs: seq<Component>): Option<seq<string>>
    decreases |cs|
  {
    if cs == [] then Some(stack)
    else
      match cs[0]
      case RootDir => None
      case CurDir => Resolve(stack, cs[1..])
      case ParentDir => if stack == [] then None else Resolve(stack[..|stack| - 1], cs[1..])
      case Normal(name) => Resolve(stack + [name], cs[1..])
  }

  function Names(cs: seq<Component>): (names: seq<string>)
    requires AllNormal(cs)
    ensures |names| == |cs|
  {
    seq(|cs|, i requires 0 <= i < |cs| => cs[i].name)
  }

  /** The names of the folder that holds the link. */
  function ParentStack(link: string): seq<string>
    requires ValidRelative(link)
  {
    var names := Names(Components(link));
    if names == [] then [] else names[..|names| - 1]
  }

  /** A link may point anywhere that resolves inside the problem folder. */
  predicate StaysInside(link: string, target: string) {
    && ValidRelative(link)
    && target != "" && !IsAbsolute(target)
    && Resolve(ParentStack(link), Components(target)).Some?
  }

  function Climb(n: nat): seq<Component> {
    seq(n, i requires 0 <= i < n => ParentDir)
  }

  lemma {:induction false} ClimbResolves(stack: seq<string>, n: nat)
    ensures Resolve(stack, Climb(n)).Some? <==> n <= |stack|
    decreases n
  {
    if n > 0 {
      assert Climb(n)[1..] == Climb(n - 1);
      if stack != [] { ClimbResolves(stack[..|stack| - 1], n - 1); }
    }
  }

  lemma HasAName(link: string)
    requires ValidRelative(link)
    ensures Components(link) != []
  {
    assert FirstPart(link)[0] == link[0];
  }

  /** A link may climb out of every directory that it lies in, but not out of the problem folder. */
  lemma ClimbsExactly(link: string, target: string, n: nat)
    requires ValidRelative(link) && target != "" && !IsAbsolute(target) && Components(target) == Climb(n)
    ensures StaysInside(link, target) <==> n < |Components(link)|
  {
    HasAName(link);
    ClimbResolves(ParentStack(link), n);
  }

  /** Resolution of a whole target takes each of its prefixes in its stride. */
  lemma {:induction false} PrefixesResolve(stack: seq<string>, cs: seq<Component>, n: nat)
    requires n <= |cs|
    ensures Resolve(stack, cs).Some? ==>
              Resolve(stack, cs[..n]).Some? && Resolve(stack, cs) == Resolve(Resolve(stack, cs[..n]).value, cs[n..])
    decreases n
  {
    if n == 0 {
      assert cs[..0] == [] && cs[0..] == cs;
    } else {
      assert cs[..n][1..] == cs[1..][..n - 1] && cs[1..][n - 1..] == cs[n..];
      match cs[0]
      case RootDir =>
      case CurDir => PrefixesResolve(stack, cs[1..], n - 1);
      case ParentDir => if stack != [] { PrefixesResolve(stack[..|stack| - 1], cs[1..], n - 1); }
      case Normal(name) => PrefixesResolve(stack + [name], cs[1..], n - 1);
    }
  }

  /** It never climbs out at any prefix, and a prefix that climbs out cannot be mended. */
  lemma NoPrefixEscapes(link: string, target: string)
    requires ValidRelative(link) && target != "" && !IsAbsolute(target)
    ensures StaysInside(link, target) <==>
              forall n :: 0 <= n <= |Components(target)| ==> Resolve(ParentStack(link), Components(target)[..n]).Some?
  {
    var stack, cs := ParentStack(link), Components(target);
    if StaysInside(link, target) {
      forall n | 0 <= n <= |cs|
        ensures Resolve(stack, cs[..n]).Some?
      {
        PrefixesResolve(stack, cs, n);
      }
    } else {
      assert cs[..|cs|] == cs;
    }
  }

  // ---------------------------------------------------------------- the checks

  method ValidateRelativePath(s: string) returns (r: Result<(), PathError>)
    ensures r.Ok? <==> ValidRelative(s)
  {
    if IsAbsolute(s) || s == "" {
      return Err(PathEscape(s));
    }
    var cs := Components(s);
    for i := 0 to |cs|
      invariant forall j :: 0 <= j < i ==> cs[j].Normal?
    {
      if !cs[i].Normal? {
        return Err(PathEscape(s));
      }
    }
    return Ok(());
  }

  /** The depth counter stands for the stack: it accepts exactly the targets that resolve inside the folder. */
  method ValidateSymlinkTarget(link: string, target: string) returns (r: Result<(), PathError>)
    ensures r.Ok? <==> StaysInside(link, target)
  {
    var checked := ValidateRelativePath(link);
    if checked.Err? {
      return Err(checked.error);
    }
    if target == "" || IsAbsolute(target) {
      return Err(PathEscape(target));
    }
    var depth := |ParentStack(link)|;
    var cs := Components(target);
    ghost var stack := ParentStack(link);
    assert cs[0..] == cs;
    for i := 0 to |cs|
      invariant depth == |stack|
      invariant Resolve(ParentStack(link), cs) == Resolve(stack, cs[i..])
    {
      assert cs[i..][0] == cs[i] && cs[i..][1..] == cs[i + 1..];
      match cs[i]
      case Normal(name) => depth := depth + 1; stack := stack + [name];
      case CurDir =>
      case ParentDir =>
        if depth == 0 {
          return Err(PathEscape(target));
        }
        depth := depth - 1;
        stack := stack[..|stack| - 1];
      case RootDir => return Err(PathEscape(target));
    }
    assert cs[|cs|..] == [];
    return Ok(());
  }

  // ---------------------------------------------------------------- what components drop

  predicate NoSeparator(part: string) {
    '/' !in part
  }

  lemma {:induction false} SplitsAtSeparator(part: string, rest: string)
    requires NoSeparator(part)
    ensures FirstPart(part + "/" + rest) == part && AfterFirst(part + "/" + rest) == Some(rest)
    decreases part
  {
    var s := part + "/" + rest;
    if part == "" {
      assert s[0] == '/';
    } else {
      SplitsAtSeparator(part[1..], rest);
      assert s[1..] == part[1..] + "/" + rest;
      assert s[0] == part[0] && part == [part[0]] + part[1..];
    }
    assert s[|part| + 1..] == rest;
  }

  lemma Plain(s: string)
    requires |s| == 1 && s[0] != '/' && s != "."
    ensures FirstPart(s) == s && RelativeComponents(s, false) == [Normal(s)]
  {
    assert s[1..] == "";
    assert s == [s[0]];
  }
}
