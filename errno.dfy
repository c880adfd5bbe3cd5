/**
 The error numbers the shim reads and writes, with the values the Linux
 kernel and Android's C library give them (`errno-base.h`).
 */
module Errno {

  /** "Operation not permitted". */
  const EPERM: int := 1

  /** "No such file or directory". */
  const ENOENT: int := 2

  /** "Permission denied". */
  const EACCES: int := 13
}
