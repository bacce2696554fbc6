/** The java.awt.event.KeyEvent virtual-key codes the game and the editor react to. */
module KeyCodes {
  const VK_BACK_SPACE: int := 8
  const VK_ENTER: int := 10
  const VK_SHIFT: int := 16
  const VK_ESCAPE: int := 27
  const VK_SPACE: int := 32
  const VK_PAGE_UP: int := 33
  const VK_PAGE_DOWN: int := 34
  const VK_LEFT: int := 37
  const VK_UP: int := 38
  const VK_RIGHT: int := 39
  const VK_DOWN: int := 40
  const VK_0: int := 48
  const VK_1: int := 49
  const VK_2: int := 50
  const VK_9: int := 57
  const VK_A: int := 65
  const VK_C: int := 67
  const VK_I: int := 73
  const VK_L: int := 76
  const VK_N: int := 78
  const VK_Q: int := 81
  const VK_R: int := 82
  const VK_S: int := 83
  const VK_X: int := 88
  const VK_Z: int := 90
  const VK_F5: int := 116
  const VK_F6: int := 117
  const VK_F7: int := 118
  const VK_F8: int := 119

  /** The two fire keys (Z and C), which also confirm on the menus. */
  predicate IsFire(key: int) { key == VK_Z || key == VK_C }

  /** The two jump keys (space and X). */
  predicate IsJump(key: int) { key == VK_SPACE || key == VK_X }
}
