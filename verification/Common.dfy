/**
 Numbers that several components share.
 */
module Common {
  const EPERM: int := 1
  const ENOENT: int := 2
  const ESRCH: int := 3
  const EIO: int := 5
  const ENXIO: int := 6
  const EBADF: int := 9
  const ENOMEM: int := 12
  const EFAULT: int := 14
  const EEXIST: int := 17
  const EXDEV: int := 18
  const ENOTDIR: int := 20
  const EISDIR: int := 21
  const EINVAL: int := 22
  const EROFS: int := 30
  const ENAMETOOLONG: int := 36
  const ENOSYS: int := 38

  const PAGE_SIZE: nat := 4096

  // VFS_COOP_IO_CHUNK
  const CHUNK: nat := PAGE_SIZE

  function Max(a: nat, b: nat): nat { if a > b then a else b }

  function Min(a: nat, b: nat): nat { if a < b then a else b }
}
