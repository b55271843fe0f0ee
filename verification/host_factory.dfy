/**
 * Selection and creation of the workload (HostFactory): a type named on the
 * command line wins; otherwise the assemblies under the base directory are
 * scanned and exactly one implementation of IHost must be found.
 */
module HostFactories {
  import opened Common
  import opened CommandLine
  import opened Platform

  // ---------------------------------------------------------------------------
  // What the two scanning loops collect.
  // ---------------------------------------------------------------------------

  /** A type the scan accepts: assignable to IHost, but not IHost itself. */
  predicate IsCandidate(t: TypeInfo)
  {
    t.assignableToIHost && !t.isIHost
  }

  /** The files whose assembly loads, in file order. */
  function LoadableAssemblies(files: seq<AssemblyFile>): (r: seq<AssemblyFile>)
    ensures |r| <= |files|
  {
    if files == [] then []
    else
      var last := files[|files| - 1];
      LoadableAssemblies(files[..|files| - 1]) + (if last.loads then [last] else [])
  }

  /** The candidates among the types of one assembly, in declaration order. */
  function CandidatesOf(types: seq<TypeInfo>): (r: seq<TypeInfo>)
    ensures |r| <= |types|
  {
    if types == [] then []
    else
      var last := types[|types| - 1];
      CandidatesOf(types[..|types| - 1]) + (if IsCandidate(last) then [last] else [])
  }

  /** The candidates of every assembly, assembly after assembly. */
  function HostTypeCandidates(assemblies: seq<AssemblyFile>): seq<TypeInfo>
  {
    if assemblies == [] then []
    else
      HostTypeCandidates(assemblies[..|assemblies| - 1]) + CandidatesOf(assemblies[|assemblies| - 1].types)
  }

  /** The types that scanning the base directory finds. */
  function ScannedHostTypes(ctx: ProcessContext): seq<TypeInfo>
  {
    HostTypeCandidates(LoadableAssemblies(ctx.assemblyFiles))
  }

  /** Exactly the files that load are kept. */
  lemma {:induction false} LoadableAssembliesAreTheLoadingFiles(files: seq<AssemblyFile>)
    ensures forall f :: f in LoadableAssemblies(files) <==> f in files && f.loads
    decreases |files|
  {
    if files != [] {
      var n := |files| - 1;
      LoadableAssembliesAreTheLoadingFiles(files[..n]);
      assert files == files[..n] + [files[n]];
    }
  }

  /** Skipping keeps file order: the files of a longer list come after those of a shorter one. */
  lemma {:induction false} LoadableAssembliesKeepOrder(files: seq<AssemblyFile>, more: seq<AssemblyFile>)
    ensures LoadableAssemblies(files + more) == LoadableAssemblies(files) + LoadableAssemblies(more)
    decreases |more|
  {
    if more == [] {
      assert files + more == files;
    } else {
      var n := |more| - 1;
      LoadableAssembliesKeepOrder(files, more[..n]);
      assert (files + more)[..|files + more| - 1] == files + more[..n];
    }
  }

  /** Exactly the candidates among the types are kept. */
  lemma {:induction false} CandidatesOfAreTheCandidates(types: seq<TypeInfo>)
    ensures forall t :: t in CandidatesOf(types) <==> t in types && IsCandidate(t)
    decreases |types|
  {
    if types != [] {
      var n := |types| - 1;
      CandidatesOfAreTheCandidates(types[..n]);
      assert types == types[..n] + [types[n]];
    }
  }

  /** Some assembly of the list declares `t`. */
  predicate Declares(assemblies: seq<AssemblyFile>, t: TypeInfo)
  {
    exists i :: 0 <= i < |assemblies| && t in assemblies[i].types
  }

  /** A type is found exactly when some assembly declares it and it is a candidate. */
  lemma {:induction false} HostTypeCandidatesAreTheCandidates(assemblies: seq<AssemblyFile>, t: TypeInfo)
    ensures t in HostTypeCandidates(assemblies) <==> IsCandidate(t) && Declares(assemblies, t)
    decreases |assemblies|
  {
    if assemblies != [] {
      var n := |assemblies| - 1;
      var front := assemblies[..n];
      var last := assemblies[n];
      HostTypeCandidatesAreTheCandidates(front, t);
      CandidatesOfAreTheCandidates(last.types);
      assert HostTypeCandidates(assemblies) == HostTypeCandidates(front) + CandidatesOf(last.types);
      assert Declares(assemblies, t) <==> Declares(front, t) || t in last.types by {
        if Declares(assemblies, t) {
          var i :| 0 <= i < |assemblies| && t in assemblies[i].types;
          if i < n {
            assert front[i] == assemblies[i];
          }
        }
        if Declares(front, t) {
          var i :| 0 <= i < |front| && t in front[i].types;
          assert assemblies[i] == front[i];
        }
      }
    }
  }

  /** Candidates are listed assembly by assembly. */
  lemma {:induction false} HostTypeCandidatesKeepOrder(assemblies: seq<AssemblyFile>, more: seq<AssemblyFile>)
    ensures HostTypeCandidates(assemblies + more) == HostTypeCandidates(assemblies) + HostTypeCandidates(more)
    decreases |more|
  {
    if more == [] {
      assert assemblies + more == assemblies;
    } else {
      var n := |more| - 1;
      var all := assemblies + more;
      assert all[..|all| - 1] == assemblies + more[..n] && all[|all| - 1] == more[n];
      var front := HostTypeCandidates(assemblies);
      var last := CandidatesOf(more[n].types);
      calc {
        HostTypeCandidates(all);
        HostTypeCandidates(assemblies + more[..n]) + last;
        { HostTypeCandidatesKeepOrder(assemblies, more[..n]); }
        front + HostTypeCandidates(more[..n]) + last;
        front + (HostTypeCandidates(more[..n]) + last);
        front + HostTypeCandidates(more);
      }
    }
  }

  // ---------------------------------------------------------------------------
  // The loops themselves.
  // ---------------------------------------------------------------------------

  /** GetAssembliesToScan: a file whose load or GetTypes throws is skipped. */
  method GetAssembliesToScan(files: seq<AssemblyFile>) returns (result: seq<AssemblyFile>)
    ensures result == LoadableAssemblies(files)
  {
    result := [];
    for i := 0 to |files|
      invariant result == LoadableAssemblies(files[..i])
    {
      assert files[..i + 1][..i] == files[..i];
      var file := files[i];
      if !file.loads {
        continue;
      }
      result := result + [file];
    }
    assert files[..|files|] == files;
  }

  /** ScanAssembliesForHostTypes: the candidates of each loadable assembly, appended in turn. */
  method ScanAssembliesForHostTypes(ctx: ProcessContext) returns (result: seq<TypeInfo>)
    ensures result == ScannedHostTypes(ctx)
  {
    result := [];
    var assemblies := GetAssembliesToScan(ctx.assemblyFiles);
    for i := 0 to |assemblies|
      invariant result == HostTypeCandidates(assemblies[..i])
    {
      assert assemblies[..i + 1][..i] == assemblies[..i];
      result := result + CandidatesOf(assemblies[i].types);
    }
    assert assemblies[..|assemblies|] == assemblies;
  }

  // ---------------------------------------------------------------------------
  // Selection.
  // ---------------------------------------------------------------------------

  function NotLoadedMessage(hostTypeName: string): string
  {
    "Could not load type '" + hostTypeName + "' specified for the 'serviceBusHostType' command line argument."
  }

  function NoHostTypeMessage(runtimeVersion: string, baseDirectory: string): string
  {
    "No type implementing IHost could be found in the scanned assemblies.\r\n " +
    "This could happen when the Shuttle.Core.Host fails to load your assembly containing the type implementing IHost.\r\n\r\n" +
    "Try specifying the type explicitly on the command line using the 'HostType' option.\r\n\r\n" +
    "One possibility is that the assembly that contains the IHost implementation, or one of it's dependancies, cannot be loaded.  Please check the log messages to establish if this is the case.\r\n\r\n" +
    "Another possibility is that the framework Shuttle.Core.Host is running under (" + runtimeVersion + ") is older than the one you used to implement IHost.\r\n\r\n" +
    "Assemblies scanned in folder: " + baseDirectory
  }

  const AmbiguityHead := "The Shuttle.Core.Host doesn't support hosting of multiple IHost type implementations. Types found: "
  const AmbiguityTail := " You may have some old assemblies in your runtime directory. Try right-clicking your VS project, and selecting 'Clean'."

  function AssemblyQualifiedNames(types: seq<TypeInfo>): (r: seq<string>)
    ensures |r| == |types|
    ensures forall i :: 0 <= i < |types| ==> r[i] == types[i].assemblyQualifiedName
  {
    seq(|types|, i requires 0 <= i < |types| => types[i].assemblyQualifiedName)
  }

  function AmbiguityMessage(types: seq<TypeInfo>): string
  {
    AmbiguityHead + Join(", ", AssemblyQualifiedNames(types)) + AmbiguityTail
  }

  /** A slice of the middle part of a three-part string. */
  lemma SliceOfMiddle(head: string, middle: string, tail: string, k: nat, length: nat)
    requires k + length <= |middle|
    ensures (head + middle + tail)[|head| + k..|head| + k + length] == middle[k..k + length]
  {
    assert (head + middle + tail)[|head|..|head| + |middle|] == middle;
  }

  /** The ambiguity message names every type found, in the order found. */
  lemma AmbiguityMessageListsEveryType(types: seq<TypeInfo>, i: nat, j: nat)
    requires i < j < |types|
    ensures var names := AssemblyQualifiedNames(types);
      var at := |AmbiguityHead| + JoinOffset(", ", names, i);
      var at' := |AmbiguityHead| + JoinOffset(", ", names, j);
      && at + |types[i].assemblyQualifiedName| < at'
      && at' + |types[j].assemblyQualifiedName| <= |AmbiguityMessage(types)|
      && AmbiguityMessage(types)[at..at + |types[i].assemblyQualifiedName|] == types[i].assemblyQualifiedName
      && AmbiguityMessage(types)[at'..at' + |types[j].assemblyQualifiedName|] == types[j].assemblyQualifiedName
  {
    var names := AssemblyQualifiedNames(types);
    JoinShowsEveryItem(", ", names, i);
    JoinShowsEveryItem(", ", names, j);
    JoinKeepsOrder(", ", names, i, j);
    SliceOfMiddle(AmbiguityHead, Join(", ", names), AmbiguityTail, JoinOffset(", ", names, i), |names[i]|);
    SliceOfMiddle(AmbiguityHead, Join(", ", names), AmbiguityTail, JoinOffset(", ", names, j), |names[j]|);
  }

  /**
   * GetHostType as a decision: a non-empty `/hostType` is looked up and must
   * resolve; otherwise the scan must find exactly one type.
   */
  function ResolveHostType(hostTypeName: string, ctx: ProcessContext): (r: Result<TypeInfo>)
    ensures hostTypeName != "" && hostTypeName in ctx.typeCatalog ==> r == Ok(ctx.typeCatalog[hostTypeName])
    ensures hostTypeName != "" && hostTypeName !in ctx.typeCatalog ==>
      r == Err(Error(ConfigurationErrors, NotLoadedMessage(hostTypeName)))
    ensures hostTypeName == "" ==> (r.Ok? <==> |ScannedHostTypes(ctx)| == 1)
    ensures hostTypeName == "" && r.Ok? ==> r.value == ScannedHostTypes(ctx)[0]
    ensures hostTypeName == "" && |ScannedHostTypes(ctx)| == 0 ==>
      r == Err(Error(InvalidOperation, NoHostTypeMessage(ctx.runtimeVersion, ctx.baseDirectory)))
    ensures hostTypeName == "" && |ScannedHostTypes(ctx)| > 1 ==>
      r == Err(Error(InvalidOperation, AmbiguityMessage(ScannedHostTypes(ctx))))
  {
    if hostTypeName != "" then
      if hostTypeName in ctx.typeCatalog then Ok(ctx.typeCatalog[hostTypeName])
      else Err(Error(ConfigurationErrors, NotLoadedMessage(hostTypeName)))
    else
      var found := ScannedHostTypes(ctx);
      if |found| == 0 then Err(Error(InvalidOperation, NoHostTypeMessage(ctx.runtimeVersion, ctx.baseDirectory)))
      else if |found| > 1 then Err(Error(InvalidOperation, AmbiguityMessage(found)))
      else Ok(found[0])
  }

  /** A type found by scanning implements IHost and comes from an assembly that loads. */
  lemma ScannedTypeImplementsHost(ctx: ProcessContext)
    requires ResolveHostType("", ctx).Ok?
    ensures IsCandidate(ResolveHostType("", ctx).value)
    ensures exists f :: f in ctx.assemblyFiles && f.loads && ResolveHostType("", ctx).value in f.types
  {
    var t := ResolveHostType("", ctx).value;
    var assemblies := LoadableAssemblies(ctx.assemblyFiles);
    HostTypeCandidatesAreTheCandidates(assemblies, t);
    var i :| 0 <= i < |assemblies| && t in assemblies[i].types;
    LoadableAssembliesAreTheLoadingFiles(ctx.assemblyFiles);
    assert assemblies[i] in assemblies;
  }

  /** GetHostType: reads `/hostType` and scans only when it is absent or empty. */
  method GetHostType(arguments: Arguments, ctx: ProcessContext) returns (r: Result<TypeInfo>)
    ensures r == ResolveHostType(GetString(arguments.parameters, "HostType", ""), ctx)
  {
    var hostType := arguments.Get("HostType", "");
    if hostType != "" {
      if hostType !in ctx.typeCatalog {
        return Err(Error(ConfigurationErrors, NotLoadedMessage(hostType)));
      }
      return Ok(ctx.typeCatalog[hostType]);
    }
    var hostTypes := ScanAssembliesForHostTypes(ctx);
    if |hostTypes| == 0 {
      return Err(Error(InvalidOperation, NoHostTypeMessage(ctx.runtimeVersion, ctx.baseDirectory)));
    }
    if |hostTypes| > 1 {
      return Err(Error(InvalidOperation, AmbiguityMessage(hostTypes)));
    }
    return Ok(hostTypes[0]);
  }

  function MissingConstructorMessage(fullName: string): string
  {
    "Service bus host type '" + fullName + "' implementing IHost must have a default constructor."
  }

  function InvalidCastMessage(fullName: string): string
  {
    "Unable to cast object of type '" + fullName + "' to type 'IHost'."
  }

  /**
   * What Create returns for a parser whose `/hostType` is `hostTypeName`: the
   * selected type must have a default constructor, and the new instance must
   * cast to IHost.
   */
  function CreateHost(hostTypeName: string, ctx: ProcessContext): (r: Result<HostInstance>)
    ensures var selected := ResolveHostType(hostTypeName, ctx);
      && (selected.Err? ==> r == Err(selected.error))
      && (selected.Ok? && !selected.value.hasDefaultConstructor ==>
            r == Err(Error(MissingConstructor, MissingConstructorMessage(selected.value.fullName))))
      && (selected.Ok? && selected.value.hasDefaultConstructor && !selected.value.assignableToIHost ==>
            r.Err? && r.error.kind == InvalidCast)
      && (r.Ok? <==> selected.Ok? && selected.value.hasDefaultConstructor && selected.value.assignableToIHost)
      && (r.Ok? ==> r.value.hostType == selected.value)
  {
    var hostType :- ResolveHostType(hostTypeName, ctx);
    if !hostType.hasDefaultConstructor then Err(Error(MissingConstructor, MissingConstructorMessage(hostType.fullName)))
    else if !hostType.assignableToIHost then Err(Error(InvalidCast, InvalidCastMessage(hostType.fullName)))
    else Ok(HostInstance(hostType))
  }

  /** A host created without naming a type is the one implementation found by the scan. */
  lemma CreatedByScan(ctx: ProcessContext)
    requires CreateHost("", ctx).Ok?
    ensures ScannedHostTypes(ctx) == [CreateHost("", ctx).value.hostType]
    ensures IsCandidate(CreateHost("", ctx).value.hostType)
  {
    ScannedTypeImplementsHost(ctx);
  }

  /** Create: refuses a missing parser, then selects the type and creates the instance. */
  method Create(arguments: Arguments?, ctx: ProcessContext) returns (r: Result<HostInstance>)
    ensures arguments == null ==> r == Err(Error(ArgumentNull, "arguments"))
    ensures arguments != null ==> r == CreateHost(GetString(arguments.parameters, "HostType", ""), ctx)
  {
    if arguments == null {
      return Err(Error(ArgumentNull, "arguments"));
    }
    var hostType :- GetHostType(arguments, ctx);
    if !hostType.hasDefaultConstructor {
      return Err(Error(MissingConstructor, MissingConstructorMessage(hostType.fullName)));
    }
    if !hostType.assignableToIHost {
      return Err(Error(InvalidCast, InvalidCastMessage(hostType.fullName)));
    }
    return Ok(HostInstance(hostType));
  }
}
