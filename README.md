# proc-eperm-shim, modelled in Dafny

The shim is a small library preloaded in front of the C library on Android. It
runs under a user-space system-call emulator that reports "operation not
permitted" (`EPERM`) for some operations on `/proc` paths. A package-manager
garbage collector only understands "permission denied" (`EACCES`) there. The
shim wraps four filesystem calls: `readlink`, `readlinkat`, `lstat` and
`fstatat` (POSIX.1-2017). Each wrapper does four things:

- it resolves the next definition of its function once and caches the handle
  in a function-local `static` pointer;
- it forwards every argument unchanged;
- when the forwarded call returns -1, it runs `fix_errno`, which turns `EPERM`
  into `EACCES` for paths that begin with `/proc/`;
- it returns the forwarded result untouched.

The model has three modules:

- `CString` (`cstring.dfy`) models `strncmp` over NUL-terminated strings. A
  string is its characters without the terminator; reading past the end
  yields NUL. The module proves that comparing against a NUL-free pattern is
  a prefix test.
- `Errno` (`errno.dfy`) holds the error numbers, with their Linux/Android
  values.
- `ProcEpermShim` (`proc_eperm_shim.dfy`) holds the remap rule and the
  observable outcome of a wrapper as pure functions, with lemmas about them.
  It also has a class `Shim`. Its fields are `errno` and the four cached
  handles (`None` stands for the null pointer). Its methods are `FixErrno`
  and the four wrappers. Each wrapper is proved against the pure functions.

A wrapper takes the genuine implementation as a parameter,
`genuine: Call -> Outcome`. It maps the forwarded arguments to the return
value and the `errno` the genuine call leaves behind. The wrapper's contract
names the exact `Call` it forwards. So the model shows that `fd`, `flags` and
`bufsiz` reach the genuine function unchanged, and that the final `errno`
depends only on the genuine outcome and `path`.

Every wrapper's contract gives `(ret, errno)` as `Observed` of the genuine
outcome, whatever the state before the call. So two identical calls of any of
the four wrappers, against the same genuine behaviour, observe the same
result; `ReadlinkTwice` spells this out for `readlink`.

## Model

| member | source | states |
|---|---|---|
| CString.StrncmpFrom | android/proc-eperm-shim.c:10 | the `strncmp` loop, character by character; a nonzero result is witnessed by a differing character before `n` |
| CString.Strncmp | android/proc-eperm-shim.c:10 | `strncmp(s, t, n)`; nonzero only when some character among the first `n` differs |
| CString.StrncmpFromZeroIffAgree | android/proc-eperm-shim.c:10 | against a pattern without NUL, the comparison from offset `i` is zero iff `s` has the pattern's characters at every offset `i..n-1` |
| CString.StrncmpZeroIffPrefix | android/proc-eperm-shim.c:10 | against a NUL-free pattern, `strncmp(s, t, n) == 0` iff `|s| >= n` and `s[..n] == t[..n]`; a shorter string never matches |
| ProcEpermShim.ProcTestIsPrefixTest | android/proc-eperm-shim.c:10 | `strncmp(path, "/proc/", 6) == 0` iff the path has at least 6 characters and starts with `/proc/` |
| ProcEpermShim.Remapped | android/proc-eperm-shim.c:9-12 | the `errno` after `fix_errno` is `EACCES` when it was `EPERM` and the path starts with `/proc/`, and unchanged otherwise |
| ProcEpermShim.Observed | android/proc-eperm-shim.c:17-19 | what a caller sees: the genuine return value; `errno` unchanged unless the call returned -1; `errno` changes iff the call failed with `EPERM` on a `/proc/` path, and then it becomes `EACCES` |
| ProcEpermShim.NonProcPathKeepsErrno | android/proc-eperm-shim.c:10 | a path without the full `/proc/` prefix never has its `errno` remapped |
| ProcEpermShim.PrefixEdgeCases | android/proc-eperm-shim.c:10 | `""`, `/proc`, `/procfs/x` and `/tmp/link` fail the prefix test and `/proc/` passes; `strncmp` gives nonzero on `/proc` and zero on `/proc/` |
| ProcEpermShim.OtherErrnoKept | android/proc-eperm-shim.c:10-11 | any `errno` other than `EPERM` passes through unchanged, also for `/proc/` paths |
| ProcEpermShim.RemapIdempotent | android/proc-eperm-shim.c:10-11 | applying the remap twice gives the same `errno` as applying it once |
| ProcEpermShim.ObservedIdempotent | android/proc-eperm-shim.c:17-19 | filtering an already filtered outcome changes nothing |
| ProcEpermShim.Scenarios | android/proc-eperm-shim.c:9-19 | `EPERM` on `/proc/1/exe` becomes `EACCES`; `ENOENT` on `/proc/self/fd/3` is kept; `EPERM` on `/tmp/link` is kept; a success on `/proc/2/cwd` keeps both its result and its `errno` |
| ProcEpermShim.Shim.constructor | android/proc-eperm-shim.c:15 | at load time all four cached pointers are null |
| ProcEpermShim.Shim.FixErrno | android/proc-eperm-shim.c:9-12 | overwrites `errno` with `EACCES` exactly when it was `EPERM` and the path starts with `/proc/`; otherwise leaves it unchanged |
| ProcEpermShim.Shim.Readlink | android/proc-eperm-shim.c:14-20 | resolves `readlink` only while the cache is null and never overwrites a set handle; forwards `path` and `bufsiz` unchanged; returns the genuine result; leaves `errno` as the genuine call did unless the call returned -1; `(ret, errno)` is `Observed` of the genuine outcome |
| ProcEpermShim.Shim.Readlinkat | android/proc-eperm-shim.c:22-28 | as `Readlink`, also forwarding `fd`; the remap depends on `path` and the genuine outcome alone |
| ProcEpermShim.Shim.Lstat | android/proc-eperm-shim.c:30-36 | as `Readlink`, for `lstat` and its own cached pointer |
| ProcEpermShim.Shim.Fstatat | android/proc-eperm-shim.c:38-44 | as `Readlink`, also forwarding `fd` and `flags`; neither takes part in the remap |
| ProcEpermShim.ReadlinkTwice | android/proc-eperm-shim.c:14-20 | two identical calls against the same genuine behaviour observe the same `(ret, errno)`, and `errno` ends as the second call left it; only `errno` and the `readlink` handle may change; a handle already set is kept, and the handle ends set |

## Left out

- `dlsym(RTLD_NEXT, …)` and load-order interposition are foreign to the
  model. `DlsymNext` stands for them: it yields one fixed handle per name. A
  failed lookup (a null handle, which crashes the C code on the forwarded
  call) is not modelled.
- The genuine `readlink`, `readlinkat`, `lstat` and `fstatat` are not
  modelled. Each wrapper takes them as a parameter that maps the forwarded
  arguments to a return value and the `errno` left behind. The call is not
  routed through the cached handle. The contents of the output buffer and of
  `struct stat` are not modelled, so the `buf` and `st` pointers are not
  arguments.
- Two threads can both resolve a handle on first use, because the `static`
  pointers are not guarded. The model is sequential and leaves this race out.
- `errno` is thread-local in C. Here it is one mutable field.
- Characters stand for bytes. The general `Strncmp` counts characters, not
  bytes, and returns the difference of two code points, where C compares
  unsigned bytes of the encoded string. The two agree on the shim's only
  use, the ASCII pattern `/proc/` over six positions.
- C memory details are not modelled (pointer validity, NUL scanning beyond
  the six bytes `strncmp` reads). A path is the sequence of its characters.
  The `ssize_t`/`int` widths of the return values are not modelled either;
  the shim only compares them with -1 and passes them through.
- Building the library and deploying it with `LD_PRELOAD` are not modelled.
