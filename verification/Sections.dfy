/** Image sections and the kernel records they come from. */
module Sections {
  import opened Common

  datatype Kind = Mmap | Munmap | Executable | Kernel | ThreadCreate | ThreadSetName | Buffer | Overflow | OtherKind

  /** `struct pt_image_info`. */
  datatype Section = Section(path: string, load: u64, base: u64, kind: Kind)

  /** `int`. */
  type i32 = x: int | -0x8000_0000 <= x < 0x8000_0000

  /** `struct bsdtrace_record`. */
  datatype Record = Record(kind: Kind, path: string, addr: u64, base: u64, page: i32, offset: u64, tid: i32)

  const MAXPATHLEN := 1024

  predicate HasImage(k: Kind) {
    k.Executable? || k.Mmap? || k.Kernel?
  }
}
