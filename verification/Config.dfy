/** The compile-time constants of TecnicoFS and the value types every layer shares. */
module Config {

  const ROOT_DIR_INUM := 0
  const BLOCK_SIZE: nat := 1024
  const DATA_BLOCKS: nat := 1024
  const INODE_TABLE_SIZE: nat := 50
  const MAX_OPEN_FILES: nat := 20
  const MAX_FILE_NAME: nat := 40

  /** BLOCK_SIZE / sizeof(dir_entry_t), an entry being 40 name bytes and a 4-byte number. */
  const MAX_DIR_ENTRIES: nat := 23

  /** The number of values of size_t; unsigned subtraction is taken modulo this. */
  const SIZE_T_RANGE: nat := 0x1_0000_0000_0000_0000

  type byte = b: int | 0 <= b < 256

  /** The characters of a C string, without its terminating NUL. */
  type CString = s: seq<byte> | 0 !in s

  const SLASH: byte := 47

  datatype Option<+T> = None | Some(value: T)

  function Min(a: int, b: int): int { if a < b then a else b }

  function Max(a: int, b: int): int { if a < b then b else a }

  function Take(s: seq<byte>, n: nat): seq<byte> { if |s| <= n then s else s[..n] }

  /** The first `n` characters of a C string, or all of it. */
  function Cut(s: CString, n: nat): CString { Take(s, n) }

  predicate InRange(x: int, bound: nat) { 0 <= x < bound }

  /** `flags & TFS_O_CREAT`, `flags & TFS_O_TRUNC`, `flags & TFS_O_APPEND` on a two's complement int. */
  predicate Creates(flags: int) { flags % 2 == 1 }

  predicate Truncates(flags: int) { flags / 2 % 2 == 1 }

  predicate Appends(flags: int) { flags / 4 % 2 == 1 }
}
