/**
 The preloaded shim that sits in front of `readlink`, `readlinkat`, `lstat`
 and `fstatat`. Each wrapper resolves the next definition of its function
 once, forwards the call unchanged, and when the call failed (returned -1)
 turns an `EPERM` reported for a `/proc/` path into `EACCES`.
 */
module ProcEpermShim {
  import opened Errno
  import opened CString

  datatype Option<T> = None | Some(value: T)

  /** The opaque handle `dlsym(RTLD_NEXT, name)` yields for one function name. */
  datatype Symbol = NextDefinition(name: string)

  /** The dynamic-loader lookup: deterministic, one fixed handle per name. */
  function DlsymNext(name: string): Symbol
  {
    NextDefinition(name)
  }

  /** The arguments a wrapper forwards to the genuine function. */
  datatype Call =
    | ReadlinkCall(path: string, bufsiz: nat)
    | ReadlinkatCall(fd: int, path: string, bufsiz: nat)
    | LstatCall(path: string)
    | FstatatCall(fd: int, path: string, flags: int)

  /** What a call leaves behind for its caller: the return value and `errno`. */
  datatype Outcome = Outcome(ret: int, errno: int)

  const ProcPrefix: string := "/proc/"
  const ProcPrefixLen: nat := 6

  /** `path` names something inside the `/proc/` directory tree. */
  predicate StartsWithProc(path: string)
  {
    ProcPrefixLen <= |path| && path[..ProcPrefixLen] == ProcPrefix
  }

  /**
   The test the shim performs, `strncmp(path, "/proc/", 6) == 0`, is the prefix
   test: `/proc/` itself matches, `/proc`, `/procfs/x` and `""` do not.
   */
  lemma ProcTestIsPrefixTest(path: string)
    ensures Strncmp(path, ProcPrefix, ProcPrefixLen) == 0 <==> StartsWithProc(path)
  {
    assert forall k :: 0 <= k < ProcPrefixLen ==> ProcPrefix[k] != NUL;
    StrncmpZeroIffPrefix(path, ProcPrefix, ProcPrefixLen);
    assert ProcPrefix[..ProcPrefixLen] == ProcPrefix;
  }

  /**
   The `errno` that `fix_errno` leaves, given the one it found: `EPERM` on a
   `/proc/` path becomes `EACCES`, every other value is left alone.
   */
  function Remapped(err: int, path: string): (e: int)
    ensures err == EPERM && StartsWithProc(path) ==> e == EACCES
    ensures !(err == EPERM && StartsWithProc(path)) ==> e == err
  {
    ProcTestIsPrefixTest(path);
    if err == EPERM && Strncmp(path, ProcPrefix, ProcPrefixLen) == 0 then EACCES else err
  }

  /**
   What the caller of a wrapper observes, given what the genuine call produced
   on `path`: the same return value, and `errno` changed only on failure, only
   from `EPERM`, only for a `/proc/` path, and then to `EACCES`.
   */
  function Observed(genuine: Outcome, path: string): (seen: Outcome)
    ensures seen.ret == genuine.ret
    ensures genuine.ret != -1 ==> seen.errno == genuine.errno
    ensures seen.errno != genuine.errno <==>
              genuine.ret == -1 && genuine.errno == EPERM && StartsWithProc(path)
    ensures seen.errno != genuine.errno ==> seen.errno == EACCES
  {
    Outcome(genuine.ret, if genuine.ret == -1 then Remapped(genuine.errno, path) else genuine.errno)
  }

  /** Every path that lacks the full six-character prefix keeps its `errno`. */
  lemma NonProcPathKeepsErrno(err: int, path: string)
    requires !StartsWithProc(path)
    ensures Remapped(err, path) == err
  {
  }

  /** The near misses of the prefix test, and the shortest path that matches. */
  lemma {:induction false} PrefixEdgeCases()
    ensures !StartsWithProc("") && !StartsWithProc("/proc") && !StartsWithProc("/procfs/x")
    ensures !StartsWithProc("/tmp/link")
    ensures StartsWithProc("/proc/")
    ensures Strncmp("/proc", ProcPrefix, ProcPrefixLen) != 0
    ensures Strncmp("/proc/", ProcPrefix, ProcPrefixLen) == 0
  {
    ProcTestIsPrefixTest("/proc");
    ProcTestIsPrefixTest("/proc/");
    assert "/procfs/x"[5] != ProcPrefix[5];
    assert "/tmp/link"[1] != ProcPrefix[1];
  }

  /** Every `errno` other than `EPERM` passes through, even for `/proc/` paths. */
  lemma OtherErrnoKept(err: int, path: string)
    requires err != EPERM
    ensures Remapped(err, path) == err
  {
  }

  /** Remapping twice is remapping once: `EACCES` is never `EPERM`. */
  lemma RemapIdempotent(err: int, path: string)
    ensures Remapped(Remapped(err, path), path) == Remapped(err, path)
  {
  }

  /** The same holds of the whole filter applied to an outcome. */
  lemma ObservedIdempotent(genuine: Outcome, path: string)
    ensures Observed(Observed(genuine, path), path) == Observed(genuine, path)
  {
  }

  /**
   `EPERM` on `/proc/1/exe`, `ENOENT` on `/proc/self/fd/3`, `EPERM` on
   `/tmp/link`, and a success on `/proc/2/cwd`, as a caller of the wrappers
   sees them.
   */
  lemma {:induction false} Scenarios(err: int)
    ensures Observed(Outcome(-1, EPERM), "/proc/1/exe") == Outcome(-1, EACCES)
    ensures Observed(Outcome(-1, ENOENT), "/proc/self/fd/3") == Outcome(-1, ENOENT)
    ensures Observed(Outcome(-1, EPERM), "/tmp/link") == Outcome(-1, EPERM)
    ensures Observed(Outcome(0, err), "/proc/2/cwd") == Outcome(0, err)
  {
    assert "/proc/1/exe"[..ProcPrefixLen] == ProcPrefix;
    PrefixEdgeCases();
  }

  /**
   A handle cache is either still empty (the null `static` pointer) or holds
   the handle of the function it belongs to.
   */
  ghost predicate CacheHolds(cache: Option<Symbol>, name: string)
  {
    cache.Some? ==> cache.value == DlsymNext(name)
  }

  /**
   The shim's state: the calling thread's `errno` and the four function-local
   `static real` pointers, `None` standing for null.
   */
  class Shim {
    var errno: int
    var realReadlink: Option<Symbol>
    var realReadlinkat: Option<Symbol>
    var realLstat: Option<Symbol>
    var realFstatat: Option<Symbol>

    ghost predicate Valid()
      reads this
    {
      && CacheHolds(realReadlink, "readlink")
      && CacheHolds(realReadlinkat, "readlinkat")
      && CacheHolds(realLstat, "lstat")
      && CacheHolds(realFstatat, "fstatat")
    }

    /** The library as loaded: every pointer null, `errno` whatever it was. */
    constructor (err: int)
      ensures Valid() && errno == err
      ensures realReadlink == None && realReadlinkat == None
      ensures realLstat == None && realFstatat == None
    {
      errno := err;
      realReadlink, realReadlinkat, realLstat, realFstatat := None, None, None, None;
    }

    /** `fix_errno`: overwrite `EPERM` with `EACCES` when `path` is under `/proc/`. */
    method FixErrno(path: string)
      modifies this`errno
      ensures errno == Remapped(old(errno), path)
      ensures old(errno) == EPERM && StartsWithProc(path) ==> errno == EACCES
      ensures !(old(errno) == EPERM && StartsWithProc(path)) ==> errno == old(errno)
    {
      if errno == EPERM && Strncmp(path, ProcPrefix, ProcPrefixLen) == 0 {
        errno := EACCES;
      }
    }

    /**
     `readlink`: resolve once, forward `path` and `bufsiz` unchanged, remap on
     failure, return what the genuine call returned.
     */
    method Readlink(path: string, bufsiz: nat, genuine: Call -> Outcome) returns (ret: int)
      requires Valid()
      modifies this`realReadlink, this`errno
      ensures Valid()
      ensures realReadlink == Some(DlsymNext("readlink"))
      ensures old(realReadlink).Some? ==> realReadlink == old(realReadlink)
      ensures Outcome(ret, errno) == Observed(genuine(ReadlinkCall(path, bufsiz)), path)
      ensures ret == genuine(ReadlinkCall(path, bufsiz)).ret
      ensures ret != -1 ==> errno == genuine(ReadlinkCall(path, bufsiz)).errno
    {
      if realReadlink == None {
        realReadlink := Some(DlsymNext("readlink"));
      }
      var o := genuine(ReadlinkCall(path, bufsiz));
      ret, errno := o.ret, o.errno;
      if ret == -1 {
        FixErrno(path);
      }
    }

    /** `readlinkat`: as `Readlink`; `fd` is forwarded and never inspected. */
    method Readlinkat(fd: int, path: string, bufsiz: nat, genuine: Call -> Outcome) returns (ret: int)
      requires Valid()
      modifies this`realReadlinkat, this`errno
      ensures Valid()
      ensures realReadlinkat == Some(DlsymNext("readlinkat"))
      ensures old(realReadlinkat).Some? ==> realReadlinkat == old(realReadlinkat)
      ensures Outcome(ret, errno) == Observed(genuine(ReadlinkatCall(fd, path, bufsiz)), path)
      ensures ret == genuine(ReadlinkatCall(fd, path, bufsiz)).ret
      ensures ret != -1 ==> errno == genuine(ReadlinkatCall(fd, path, bufsiz)).errno
    {
      if realReadlinkat == None {
        realReadlinkat := Some(DlsymNext("readlinkat"));
      }
      var o := genuine(ReadlinkatCall(fd, path, bufsiz));
      ret, errno := o.ret, o.errno;
      if ret == -1 {
        FixErrno(path);
      }
    }

    /** `lstat`: as `Readlink`, for the status query. */
    method Lstat(path: string, genuine: Call -> Outcome) returns (ret: int)
      requires Valid()
      modifies this`realLstat, this`errno
      ensures Valid()
      ensures realLstat == Some(DlsymNext("lstat"))
      ensures old(realLstat).Some? ==> realLstat == old(realLstat)
      ensures Outcome(ret, errno) == Observed(genuine(LstatCall(path)), path)
      ensures ret == genuine(LstatCall(path)).ret
      ensures ret != -1 ==> errno == genuine(LstatCall(path)).errno
    {
      if realLstat == None {
        realLstat := Some(DlsymNext("lstat"));
      }
      var o := genuine(LstatCall(path));
      ret, errno := o.ret, o.errno;
      if ret == -1 {
        FixErrno(path);
      }
    }

    /** `fstatat`: as `Readlink`; `fd` and `flags` are forwarded and never inspected. */
    method Fstatat(fd: int, path: string, flags: int, genuine: Call -> Outcome) returns (ret: int)
      requires Valid()
      modifies this`realFstatat, this`errno
      ensures Valid()
      ensures realFstatat == Some(DlsymNext("fstatat"))
      ensures old(realFstatat).Some? ==> realFstatat == old(realFstatat)
      ensures Outcome(ret, errno) == Observed(genuine(FstatatCall(fd, path, flags)), path)
      ensures ret == genuine(FstatatCall(fd, path, flags)).ret
      ensures ret != -1 ==> errno == genuine(FstatatCall(fd, path, flags)).errno
    {
      if realFstatat == None {
        realFstatat := Some(DlsymNext("fstatat"));
      }
      var o := genuine(FstatatCall(fd, path, flags));
      ret, errno := o.ret, o.errno;
      if ret == -1 {
        FixErrno(path);
      }
    }
  }

  /**
   Two calls of the same wrapper with the same arguments against the same
   genuine behaviour observe the same result, and the second call finds the
   handle already cached and leaves it as it was.
   */
  method ReadlinkTwice(shim: Shim, path: string, bufsiz: nat, genuine: Call -> Outcome)
    returns (first: Outcome, second: Outcome)
    requires shim.Valid()
    modifies shim`realReadlink, shim`errno
    ensures shim.Valid()
    ensures first == second == Observed(genuine(ReadlinkCall(path, bufsiz)), path)
    ensures shim.errno == second.errno
    ensures shim.realReadlink == Some(DlsymNext("readlink"))
    ensures old(shim.realReadlink).Some? ==> shim.realReadlink == old(shim.realReadlink)
  {
    var r := shim.Readlink(path, bufsiz, genuine);
    first := Outcome(r, shim.errno);
    ghost var cached := shim.realReadlink;
    r := shim.Readlink(path, bufsiz, genuine);
    second := Outcome(r, shim.errno);
    assert shim.realReadlink == cached;
  }
}
