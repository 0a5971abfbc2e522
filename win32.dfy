/**
 * Shared vocabulary of the model: the Windows result and message types the
 * overlay host, the clock overlay and the key hook exchange.
 *
 * Foreign calls (COM, DXGI, Direct2D, DirectComposition, user32) are never
 * executed by the model: each one is represented by the outcome it reports,
 * which the caller of a modelled operation supplies as an input.
 */
module Win32 {

  /** A 32-bit unsigned value (`u32` / `UINT` / an `HRESULT` bit pattern). */
  type u32 = x: int | 0 <= x < 0x1_0000_0000

  /** A 16-bit unsigned value (`u16` / `WORD`). */
  type u16 = x: int | 0 <= x < 0x1_0000

  /** A COM / windows-rs error, identified by its `HRESULT` code (as a 32-bit pattern). */
  datatype Error = Error(code: u32)

  /** `windows::core::Result<T>`. */
  datatype Result<T> = Ok(value: T) | Err(error: Error)

  /** `Result<()>`: the answer of a fallible step that produces nothing. */
  type Status = Result<()>

  datatype Option<T> = None | Some(value: T)

  // HRESULT codes the host inspects.
  const DXGI_ERROR_UNSUPPORTED: u32 := 0x887A_0004
  const DXGI_STATUS_OCCLUDED: u32 := 0x087A_0001

  // Window messages.
  const WM_DESTROY: u32 := 0x0002
  const WM_SIZE: u32 := 0x0005
  const WM_ACTIVATE: u32 := 0x0006
  const WM_PAINT: u32 := 0x000F
  const WM_QUIT: u32 := 0x0012
  const WM_DISPLAYCHANGE: u32 := 0x007E
  const WM_KEYDOWN: u32 := 0x0100
  const WM_KEYUP: u32 := 0x0101
  const WM_SYSKEYDOWN: u32 := 0x0104
  const WM_SYSKEYUP: u32 := 0x0105
  const WM_USER: u32 := 0x0400

  /** `wParam` of `WM_SIZE` when the window was minimized. */
  const SIZE_MINIMIZED: nat := 1
}
