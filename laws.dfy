/** Laws of the translation from backend events to queue entries: each
    table is undone by its inverse, so no two backend keys, actions or
    buttons are confused, and a batch of polled events is reported in
    order, without losing or altering any key or button event. */
module EventLaws {
  import opened Ints
  import Glfw
  import opened Events

  // ---------------------------------------------------------------------
  // Actions and mouse buttons
  // ---------------------------------------------------------------------

  /** MapAction is a bijection, with NativeAction as its inverse. */
  lemma MapActionBijective()
    ensures forall a: Glfw.Action :: NativeAction(MapAction(a)) == a
    ensures forall g: GsnAction :: MapAction(NativeAction(g)) == g
    ensures forall a: Glfw.Action, b: Glfw.Action :: MapAction(a) == MapAction(b) ==> a == b
  {
    forall a: Glfw.Action ensures NativeAction(MapAction(a)) == a {
      match a
      case Press =>
      case Release =>
      case Repeat =>
    }
  }

  /** MapMouseButton is injective and onto 1..8; NativeMouseButton undoes it
      and refuses every other number. */
  lemma MapMouseButtonInverse()
    ensures forall b: Glfw.MouseButton :: NativeMouseButton(MapMouseButton(b)) == Some(b)
    ensures forall n: GsnButton :: NativeMouseButton(n).Some? <==> 1 <= n <= 8
    ensures forall n: GsnButton :: NativeMouseButton(n).Some? ==> MapMouseButton(NativeMouseButton(n).value) == n
    ensures forall a: Glfw.MouseButton, b: Glfw.MouseButton :: MapMouseButton(a) == MapMouseButton(b) ==> a == b
  {
    forall b: Glfw.MouseButton ensures NativeMouseButton(MapMouseButton(b)) == Some(b) {
      match b
      case Button1 =>
      case Button2 =>
      case Button3 =>
      case Button4 =>
      case Button5 =>
      case Button6 =>
      case Button7 =>
      case Button8 =>
    }
  }

  // ---------------------------------------------------------------------
  // The key table
  // ---------------------------------------------------------------------

  // NativeKey undoes MapKeys, checked one key and one table at a time:
  // `MapKeysX` states where map_keys sends Glfw.X, `NativeKeyX` that the
  // inverse table sends that key back. Each proof evaluates one 121-arm
  // table at one key, which keeps it small; `RoundTripX` joins the two.

  lemma MapKeysSpace() ensures MapKeys(Glfw.Space) == Space { }
  lemma NativeKeySpace() ensures NativeKey(Space) == Glfw.Space { }
  lemma MapKeysApostrophe() ensures MapKeys(Glfw.Apostrophe) == Apostrophe { }
  lemma NativeKeyApostrophe() ensures NativeKey(Apostrophe) == Glfw.Apostrophe { }
  lemma MapKeysComma() ensures MapKeys(Glfw.Comma) == Comma { }
  lemma NativeKeyComma() ensures NativeKey(Comma) == Glfw.Comma { }
  lemma MapKeysMinus() ensures MapKeys(Glfw.Minus) == Minus { }
  lemma NativeKeyMinus() ensures NativeKey(Minus) == Glfw.Minus { }
  lemma MapKeysPeriod() ensures MapKeys(Glfw.Period) == Period { }
  lemma NativeKeyPeriod() ensures NativeKey(Period) == Glfw.Period { }
  lemma MapKeysSlash() ensures MapKeys(Glfw.Slash) == Slash { }
  lemma NativeKeySlash() ensures NativeKey(Slash) == Glfw.Slash { }
  lemma MapKeysNum0() ensures MapKeys(Glfw.Num0) == Num0 { }
  lemma NativeKeyNum0() ensures NativeKey(Num0) == Glfw.Num0 { }
  lemma MapKeysNum1() ensures MapKeys(Glfw.Num1) == Num1 { }
  lemma NativeKeyNum1() ensures NativeKey(Num1) == Glfw.Num1 { }
  lemma MapKeysNum2() ensures MapKeys(Glfw.Num2) == Num2 { }
  lemma NativeKeyNum2() ensures NativeKey(Num2) == Glfw.Num2 { }
  lemma MapKeysNum3() ensures MapKeys(Glfw.Num3) == Num3 { }
  lemma NativeKeyNum3() ensures NativeKey(Num3) == Glfw.Num3 { }
  lemma MapKeysNum4() ensures MapKeys(Glfw.Num4) == Num4 { }
  lemma NativeKeyNum4() ensures NativeKey(Num4) == Glfw.Num4 { }
  lemma MapKeysNum5() ensures MapKeys(Glfw.Num5) == Num5 { }
  lemma NativeKeyNum5() ensures NativeKey(Num5) == Glfw.Num5 { }
  lemma MapKeysNum6() ensures MapKeys(Glfw.Num6) == Num6 { }
  lemma NativeKeyNum6() ensures NativeKey(Num6) == Glfw.Num6 { }
  lemma MapKeysNum7() ensures MapKeys(Glfw.Num7) == Num7 { }
  lemma NativeKeyNum7() ensures NativeKey(Num7) == Glfw.Num7 { }
  lemma MapKeysNum8() ensures MapKeys(Glfw.Num8) == Num8 { }
  lemma NativeKeyNum8() ensures NativeKey(Num8) == Glfw.Num8 { }
  lemma MapKeysNum9() ensures MapKeys(Glfw.Num9) == Num9 { }
  lemma NativeKeyNum9() ensures NativeKey(Num9) == Glfw.Num9 { }
  lemma MapKeysSemicolon() ensures MapKeys(Glfw.Semicolon) == SemiColon { }
  lemma NativeKeySemicolon() ensures NativeKey(SemiColon) == Glfw.Semicolon { }
  lemma MapKeysEqual() ensures MapKeys(Glfw.Equal) == Equal { }
  lemma NativeKeyEqual() ensures NativeKey(Equal) == Glfw.Equal { }
  lemma MapKeysA() ensures MapKeys(Glfw.A) == A { }
  lemma NativeKeyA() ensures NativeKey(A) == Glfw.A { }
  lemma MapKeysB() ensures MapKeys(Glfw.B) == B { }
  lemma NativeKeyB() ensures NativeKey(B) == Glfw.B { }
  lemma MapKeysC() ensures MapKeys(Glfw.C) == C { }
  lemma NativeKeyC() ensures NativeKey(C) == Glfw.C { }
  lemma MapKeysD() ensures MapKeys(Glfw.D) == D { }
  lemma NativeKeyD() ensures NativeKey(D) == Glfw.D { }
  lemma MapKeysE() ensures MapKeys(Glfw.E) == E { }
  lemma NativeKeyE() ensures NativeKey(E) == Glfw.E { }
  lemma MapKeysF() ensures MapKeys(Glfw.F) == F { }
  lemma NativeKeyF() ensures NativeKey(F) == Glfw.F { }
  lemma MapKeysG() ensures MapKeys(Glfw.G) == G { }
  lemma NativeKeyG() ensures NativeKey(G) == Glfw.G { }
  lemma MapKeysH() ensures MapKeys(Glfw.H) == H { }
  lemma NativeKeyH() ensures NativeKey(H) == Glfw.H { }
  lemma MapKeysI() ensures MapKeys(Glfw.I) == I { }
  lemma NativeKeyI() ensures NativeKey(I) == Glfw.I { }
  lemma MapKeysJ() ensures MapKeys(Glfw.J) == J { }
  lemma NativeKeyJ() ensures NativeKey(J) == Glfw.J { }
  lemma MapKeysK() ensures MapKeys(Glfw.K) == K { }
  lemma NativeKeyK() ensures NativeKey(K) == Glfw.K { }
  lemma MapKeysL() ensures MapKeys(Glfw.L) == L { }
  lemma NativeKeyL() ensures NativeKey(L) == Glfw.L { }
  lemma MapKeysM() ensures MapKeys(Glfw.M) == M { }
  lemma NativeKeyM() ensures NativeKey(M) == Glfw.M { }
  lemma MapKeysN() ensures MapKeys(Glfw.N) == N { }
  lemma NativeKeyN() ensures NativeKey(N) == Glfw.N { }
  lemma MapKeysO() ensures MapKeys(Glfw.O) == O { }
  lemma NativeKeyO() ensures NativeKey(O) == Glfw.O { }
  lemma MapKeysP() ensures MapKeys(Glfw.P) == P { }
  lemma NativeKeyP() ensures NativeKey(P) == Glfw.P { }
  lemma MapKeysQ() ensures MapKeys(Glfw.Q) == Q { }
  lemma NativeKeyQ() ensures NativeKey(Q) == Glfw.Q { }
  lemma MapKeysR() ensures MapKeys(Glfw.R) == R { }
  lemma NativeKeyR() ensures NativeKey(R) == Glfw.R { }
  lemma MapKeysS() ensures MapKeys(Glfw.S) == S { }
  lemma NativeKeyS() ensures NativeKey(S) == Glfw.S { }
  lemma MapKeysT() ensures MapKeys(Glfw.T) == T { }
  lemma NativeKeyT() ensures NativeKey(T) == Glfw.T { }
  lemma MapKeysU() ensures MapKeys(Glfw.U) == U { }
  lemma NativeKeyU() ensures NativeKey(U) == Glfw.U { }
  lemma MapKeysV() ensures MapKeys(Glfw.V) == V { }
  lemma NativeKeyV() ensures NativeKey(V) == Glfw.V { }
  lemma MapKeysW() ensures MapKeys(Glfw.W) == W { }
  lemma NativeKeyW() ensures NativeKey(W) == Glfw.W { }
  lemma MapKeysX() ensures MapKeys(Glfw.X) == X { }
  lemma NativeKeyX() ensures NativeKey(X) == Glfw.X { }
  lemma MapKeysY() ensures MapKeys(Glfw.Y) == Y { }
  lemma NativeKeyY() ensures NativeKey(Y) == Glfw.Y { }
  lemma MapKeysZ() ensures MapKeys(Glfw.Z) == Z { }
  lemma NativeKeyZ() ensures NativeKey(Z) == Glfw.Z { }
  lemma MapKeysLeftBracket() ensures MapKeys(Glfw.LeftBracket) == LeftBracket { }
  lemma NativeKeyLeftBracket() ensures NativeKey(LeftBracket) == Glfw.LeftBracket { }
  lemma MapKeysBackslash() ensures MapKeys(Glfw.Backslash) == Backslash { }
  lemma NativeKeyBackslash() ensures NativeKey(Backslash) == Glfw.Backslash { }
  lemma MapKeysRightBracket() ensures MapKeys(Glfw.RightBracket) == RightBracket { }
  lemma NativeKeyRightBracket() ensures NativeKey(RightBracket) == Glfw.RightBracket { }
  lemma MapKeysGraveAccent() ensures MapKeys(Glfw.GraveAccent) == Grave { }
  lemma NativeKeyGraveAccent() ensures NativeKey(Grave) == Glfw.GraveAccent { }
  lemma MapKeysWorld1() ensures MapKeys(Glfw.World1) == World1 { }
  lemma NativeKeyWorld1() ensures NativeKey(World1) == Glfw.World1 { }
  lemma MapKeysWorld2() ensures MapKeys(Glfw.World2) == World2 { }
  lemma NativeKeyWorld2() ensures NativeKey(World2) == Glfw.World2 { }
  lemma MapKeysEscape() ensures MapKeys(Glfw.Escape) == Escape { }
  lemma NativeKeyEscape() ensures NativeKey(Escape) == Glfw.Escape { }
  lemma MapKeysEnter() ensures MapKeys(Glfw.Enter) == Enter { }
  lemma NativeKeyEnter() ensures NativeKey(Enter) == Glfw.Enter { }
  lemma MapKeysTab() ensures MapKeys(Glfw.Tab) == Tab { }
  lemma NativeKeyTab() ensures NativeKey(Tab) == Glfw.Tab { }
  lemma MapKeysBackspace() ensures MapKeys(Glfw.Backspace) == Backspace { }
  lemma NativeKeyBackspace() ensures NativeKey(Backspace) == Glfw.Backspace { }
  lemma MapKeysInsert() ensures MapKeys(Glfw.Insert) == Insert { }
  lemma NativeKeyInsert() ensures NativeKey(Insert) == Glfw.Insert { }
  lemma MapKeysDelete() ensures MapKeys(Glfw.Delete) == Delete { }
  lemma NativeKeyDelete() ensures NativeKey(Delete) == Glfw.Delete { }
  lemma MapKeysRight() ensures MapKeys(Glfw.Right) == Right { }
  lemma NativeKeyRight() ensures NativeKey(Right) == Glfw.Right { }
  lemma MapKeysLeft() ensures MapKeys(Glfw.Left) == Left { }
  lemma NativeKeyLeft() ensures NativeKey(Left) == Glfw.Left { }
  lemma MapKeysDown() ensures MapKeys(Glfw.Down) == Down { }
  lemma NativeKeyDown() ensures NativeKey(Down) == Glfw.Down { }
  lemma MapKeysUp() ensures MapKeys(Glfw.Up) == Up { }
  lemma NativeKeyUp() ensures NativeKey(Up) == Glfw.Up { }
  lemma MapKeysPageUp() ensures MapKeys(Glfw.PageUp) == PageUp { }
  lemma NativeKeyPageUp() ensures NativeKey(PageUp) == Glfw.PageUp { }
  lemma MapKeysPageDown() ensures MapKeys(Glfw.PageDown) == PageDown { }
  lemma NativeKeyPageDown() ensures NativeKey(PageDown) == Glfw.PageDown { }
  lemma MapKeysHome() ensures MapKeys(Glfw.Home) == Home { }
  lemma NativeKeyHome() ensures NativeKey(Home) == Glfw.Home { }
  lemma MapKeysEnd() ensures MapKeys(Glfw.End) == End { }
  lemma NativeKeyEnd() ensures NativeKey(End) == Glfw.End { }
  lemma MapKeysCapsLock() ensures MapKeys(Glfw.CapsLock) == CapsLock { }
  lemma NativeKeyCapsLock() ensures NativeKey(CapsLock) == Glfw.CapsLock { }
  lemma MapKeysScrollLock() ensures MapKeys(Glfw.ScrollLock) == ScrollLock { }
  lemma NativeKeyScrollLock() ensures NativeKey(ScrollLock) == Glfw.ScrollLock { }
  lemma MapKeysNumLock() ensures MapKeys(Glfw.NumLock) == NumLock { }
  lemma NativeKeyNumLock() ensures NativeKey(NumLock) == Glfw.NumLock { }
  lemma MapKeysPrintScreen() ensures MapKeys(Glfw.PrintScreen) == PrintScreen { }
  lemma NativeKeyPrintScreen() ensures NativeKey(PrintScreen) == Glfw.PrintScreen { }
  lemma MapKeysPause() ensures MapKeys(Glfw.Pause) == Pause { }
  lemma NativeKeyPause() ensures NativeKey(Pause) == Glfw.Pause { }
  lemma MapKeysF1() ensures MapKeys(Glfw.F1) == F1 { }
  lemma NativeKeyF1() ensures NativeKey(F1) == Glfw.F1 { }
  lemma MapKeysF2() ensures MapKeys(Glfw.F2) == F2 { }
  lemma NativeKeyF2() ensures NativeKey(F2) == Glfw.F2 { }
  lemma MapKeysF3() ensures MapKeys(Glfw.F3) == F3 { }
  lemma NativeKeyF3() ensures NativeKey(F3) == Glfw.F3 { }
  lemma MapKeysF4() ensures MapKeys(Glfw.F4) == F4 { }
  lemma NativeKeyF4() ensures NativeKey(F4) == Glfw.F4 { }
  lemma MapKeysF5() ensures MapKeys(Glfw.F5) == F5 { }
  lemma NativeKeyF5() ensures NativeKey(F5) == Glfw.F5 { }
  lemma MapKeysF6() ensures MapKeys(Glfw.F6) == F6 { }
  lemma NativeKeyF6() ensures NativeKey(F6) == Glfw.F6 { }
  lemma MapKeysF7() ensures MapKeys(Glfw.F7) == F7 { }
  lemma NativeKeyF7() ensures NativeKey(F7) == Glfw.F7 { }
  lemma MapKeysF8() ensures MapKeys(Glfw.F8) == F8 { }
  lemma NativeKeyF8() ensures NativeKey(F8) == Glfw.F8 { }
  lemma MapKeysF9() ensures MapKeys(Glfw.F9) == F9 { }
  lemma NativeKeyF9() ensures NativeKey(F9) == Glfw.F9 { }
  lemma MapKeysF10() ensures MapKeys(Glfw.F10) == F10 { }
  lemma NativeKeyF10() ensures NativeKey(F10) == Glfw.F10 { }
  lemma MapKeysF11() ensures MapKeys(Glfw.F11) == F11 { }
  lemma NativeKeyF11() ensures NativeKey(F11) == Glfw.F11 { }
  lemma MapKeysF12() ensures MapKeys(Glfw.F12) == F12 { }
  lemma NativeKeyF12() ensures NativeKey(F12) == Glfw.F12 { }
  lemma MapKeysF13() ensures MapKeys(Glfw.F13) == F13 { }
  lemma NativeKeyF13() ensures NativeKey(F13) == Glfw.F13 { }
  lemma MapKeysF14() ensures MapKeys(Glfw.F14) == F14 { }
  lemma NativeKeyF14() ensures NativeKey(F14) == Glfw.F14 { }
  lemma MapKeysF15() ensures MapKeys(Glfw.F15) == F15 { }
  lemma NativeKeyF15() ensures NativeKey(F15) == Glfw.F15 { }
  lemma MapKeysF16() ensures MapKeys(Glfw.F16) == F16 { }
  lemma NativeKeyF16() ensures NativeKey(F16) == Glfw.F16 { }
  lemma MapKeysF17() ensures MapKeys(Glfw.F17) == F17 { }
  lemma NativeKeyF17() ensures NativeKey(F17) == Glfw.F17 { }
  lemma MapKeysF18() ensures MapKeys(Glfw.F18) == F18 { }
  lemma NativeKeyF18() ensures NativeKey(F18) == Glfw.F18 { }
  lemma MapKeysF19() ensures MapKeys(Glfw.F19) == F19 { }
  lemma NativeKeyF19() ensures NativeKey(F19) == Glfw.F19 { }
  lemma MapKeysF20() ensures MapKeys(Glfw.F20) == F20 { }
  lemma NativeKeyF20() ensures NativeKey(F20) == Glfw.F20 { }
  lemma MapKeysF21() ensures MapKeys(Glfw.F21) == F21 { }
  lemma NativeKeyF21() ensures NativeKey(F21) == Glfw.F21 { }
  lemma MapKeysF22() ensures MapKeys(Glfw.F22) == F22 { }
  lemma NativeKeyF22() ensures NativeKey(F22) == Glfw.F22 { }
  lemma MapKeysF23() ensures MapKeys(Glfw.F23) == F23 { }
  lemma NativeKeyF23() ensures NativeKey(F23) == Glfw.F23 { }
  lemma MapKeysF24() ensures MapKeys(Glfw.F24) == F24 { }
  lemma NativeKeyF24() ensures NativeKey(F24) == Glfw.F24 { }
  lemma MapKeysF25() ensures MapKeys(Glfw.F25) == F25 { }
  lemma NativeKeyF25() ensures NativeKey(F25) == Glfw.F25 { }
  lemma MapKeysKp0() ensures MapKeys(Glfw.Kp0) == Kp0 { }
  lemma NativeKeyKp0() ensures NativeKey(Kp0) == Glfw.Kp0 { }
  lemma MapKeysKp1() ensures MapKeys(Glfw.Kp1) == Kp1 { }
  lemma NativeKeyKp1() ensures NativeKey(Kp1) == Glfw.Kp1 { }
  lemma MapKeysKp2() ensures MapKeys(Glfw.Kp2) == Kp2 { }
  lemma NativeKeyKp2() ensures NativeKey(Kp2) == Glfw.Kp2 { }
  lemma MapKeysKp3() ensures MapKeys(Glfw.Kp3) == Kp3 { }
  lemma NativeKeyKp3() ensures NativeKey(Kp3) == Glfw.Kp3 { }
  lemma MapKeysKp4() ensures MapKeys(Glfw.Kp4) == Kp4 { }
  lemma NativeKeyKp4() ensures NativeKey(Kp4) == Glfw.Kp4 { }
  lemma MapKeysKp5() ensures MapKeys(Glfw.Kp5) == Kp5 { }
  lemma NativeKeyKp5() ensures NativeKey(Kp5) == Glfw.Kp5 { }
  lemma MapKeysKp6() ensures MapKeys(Glfw.Kp6) == Kp6 { }
  lemma NativeKeyKp6() ensures NativeKey(Kp6) == Glfw.Kp6 { }
  lemma MapKeysKp7() ensures MapKeys(Glfw.Kp7) == Kp7 { }
  lemma NativeKeyKp7() ensures NativeKey(Kp7) == Glfw.Kp7 { }
  lemma MapKeysKp8() ensures MapKeys(Glfw.Kp8) == Kp8 { }
  lemma NativeKeyKp8() ensures NativeKey(Kp8) == Glfw.Kp8 { }
  lemma MapKeysKp9() ensures MapKeys(Glfw.Kp9) == Kp9 { }
  lemma NativeKeyKp9() ensures NativeKey(Kp9) == Glfw.Kp9 { }
  lemma MapKeysKpDecimal() ensures MapKeys(Glfw.KpDecimal) == KpDecimal { }
  lemma NativeKeyKpDecimal() ensures NativeKey(KpDecimal) == Glfw.KpDecimal { }
  lemma MapKeysKpDivide() ensures MapKeys(Glfw.KpDivide) == KpDivide { }
  lemma NativeKeyKpDivide() ensures NativeKey(KpDivide) == Glfw.KpDivide { }
  lemma MapKeysKpMultiply() ensures MapKeys(Glfw.KpMultiply) == KpMultiply { }
  lemma NativeKeyKpMultiply() ensures NativeKey(KpMultiply) == Glfw.KpMultiply { }
  lemma MapKeysKpSubtract() ensures MapKeys(Glfw.KpSubtract) == KpSubtract { }
  lemma NativeKeyKpSubtract() ensures NativeKey(KpSubtract) == Glfw.KpSubtract { }
  lemma MapKeysKpAdd() ensures MapKeys(Glfw.KpAdd) == KpAdd { }
  lemma NativeKeyKpAdd() ensures NativeKey(KpAdd) == Glfw.KpAdd { }
  lemma MapKeysKpEnter() ensures MapKeys(Glfw.KpEnter) == KpEnter { }
  lemma NativeKeyKpEnter() ensures NativeKey(KpEnter) == Glfw.KpEnter { }
  lemma MapKeysKpEqual() ensures MapKeys(Glfw.KpEqual) == KpEqual { }
  lemma NativeKeyKpEqual() ensures NativeKey(KpEqual) == Glfw.KpEqual { }
  lemma MapKeysLeftShift() ensures MapKeys(Glfw.LeftShift) == LeftShift { }
  lemma NativeKeyLeftShift() ensures NativeKey(LeftShift) == Glfw.LeftShift { }
  lemma MapKeysLeftControl() ensures MapKeys(Glfw.LeftControl) == LeftControl { }
  lemma NativeKeyLeftControl() ensures NativeKey(LeftControl) == Glfw.LeftControl { }
  lemma MapKeysLeftAlt() ensures MapKeys(Glfw.LeftAlt) == LeftAlt { }
  lemma NativeKeyLeftAlt() ensures NativeKey(LeftAlt) == Glfw.LeftAlt { }
  lemma MapKeysLeftSuper() ensures MapKeys(Glfw.LeftSuper) == LeftSuper { }
  lemma NativeKeyLeftSuper() ensures NativeKey(LeftSuper) == Glfw.LeftSuper { }
  lemma MapKeysRightShift() ensures MapKeys(Glfw.RightShift) == RightShift { }
  lemma NativeKeyRightShift() ensures NativeKey(RightShift) == Glfw.RightShift { }
  lemma MapKeysRightControl() ensures MapKeys(Glfw.RightControl) == RightControl { }
  lemma NativeKeyRightControl() ensures NativeKey(RightControl) == Glfw.RightControl { }
  lemma MapKeysRightAlt() ensures MapKeys(Glfw.RightAlt) == RightAlt { }
  lemma NativeKeyRightAlt() ensures NativeKey(RightAlt) == Glfw.RightAlt { }
  lemma MapKeysRightSuper() ensures MapKeys(Glfw.RightSuper) == RightSuper { }
  lemma NativeKeyRightSuper() ensures NativeKey(RightSuper) == Glfw.RightSuper { }
  lemma MapKeysMenu() ensures MapKeys(Glfw.Menu) == Menu { }
  lemma NativeKeyMenu() ensures NativeKey(Menu) == Glfw.Menu { }
  lemma MapKeysUnknown() ensures MapKeys(Glfw.Unknown) == Unknown { }
  lemma NativeKeyUnknown() ensures NativeKey(Unknown) == Glfw.Unknown { }

  lemma RoundTripSpace() ensures NativeKey(MapKeys(Glfw.Space)) == Glfw.Space { MapKeysSpace(); NativeKeySpace(); }
  lemma RoundTripApostrophe() ensures NativeKey(MapKeys(Glfw.Apostrophe)) == Glfw.Apostrophe { MapKeysApostrophe(); NativeKeyApostrophe(); }
  lemma RoundTripComma() ensures NativeKey(MapKeys(Glfw.Comma)) == Glfw.Comma { MapKeysComma(); NativeKeyComma(); }
  lemma RoundTripMinus() ensures NativeKey(MapKeys(Glfw.Minus)) == Glfw.Minus { MapKeysMinus(); NativeKeyMinus(); }
  lemma RoundTripPeriod() ensures NativeKey(MapKeys(Glfw.Period)) == Glfw.Period { MapKeysPeriod(); NativeKeyPeriod(); }
  lemma RoundTripSlash() ensures NativeKey(MapKeys(Glfw.Slash)) == Glfw.Slash { MapKeysSlash(); NativeKeySlash(); }
  lemma RoundTripNum0() ensures NativeKey(MapKeys(Glfw.Num0)) == Glfw.Num0 { MapKeysNum0(); NativeKeyNum0(); }
  lemma RoundTripNum1() ensures NativeKey(MapKeys(Glfw.Num1)) == Glfw.Num1 { MapKeysNum1(); NativeKeyNum1(); }
  lemma RoundTripNum2() ensures NativeKey(MapKeys(Glfw.Num2)) == Glfw.Num2 { MapKeysNum2(); NativeKeyNum2(); }
  lemma RoundTripNum3() ensures NativeKey(MapKeys(Glfw.Num3)) == Glfw.Num3 { MapKeysNum3(); NativeKeyNum3(); }
  lemma RoundTripNum4() ensures NativeKey(MapKeys(Glfw.Num4)) == Glfw.Num4 { MapKeysNum4(); NativeKeyNum4(); }
  lemma RoundTripNum5() ensures NativeKey(MapKeys(Glfw.Num5)) == Glfw.Num5 { MapKeysNum5(); NativeKeyNum5(); }
  lemma RoundTripNum6() ensures NativeKey(MapKeys(Glfw.Num6)) == Glfw.Num6 { MapKeysNum6(); NativeKeyNum6(); }
  lemma RoundTripNum7() ensures NativeKey(MapKeys(Glfw.Num7)) == Glfw.Num7 { MapKeysNum7(); NativeKeyNum7(); }
  lemma RoundTripNum8() ensures NativeKey(MapKeys(Glfw.Num8)) == Glfw.Num8 { MapKeysNum8(); NativeKeyNum8(); }
  lemma RoundTripNum9() ensures NativeKey(MapKeys(Glfw.Num9)) == Glfw.Num9 { MapKeysNum9(); NativeKeyNum9(); }
  lemma RoundTripSemicolon() ensures NativeKey(MapKeys(Glfw.Semicolon)) == Glfw.Semicolon { MapKeysSemicolon(); NativeKeySemicolon(); }
  lemma RoundTripEqual() ensures NativeKey(MapKeys(Glfw.Equal)) == Glfw.Equal { MapKeysEqual(); NativeKeyEqual(); }
  lemma RoundTripA() ensures NativeKey(MapKeys(Glfw.A)) == Glfw.A { MapKeysA(); NativeKeyA(); }
  lemma RoundTripB() ensures NativeKey(MapKeys(Glfw.B)) == Glfw.B { MapKeysB(); NativeKeyB(); }
  lemma RoundTripC() ensures NativeKey(MapKeys(Glfw.C)) == Glfw.C { MapKeysC(); NativeKeyC(); }
  lemma RoundTripD() ensures NativeKey(MapKeys(Glfw.D)) == Glfw.D { MapKeysD(); NativeKeyD(); }
  lemma RoundTripE() ensures NativeKey(MapKeys(Glfw.E)) == Glfw.E { MapKeysE(); NativeKeyE(); }
  lemma RoundTripF() ensures NativeKey(MapKeys(Glfw.F)) == Glfw.F { MapKeysF(); NativeKeyF(); }
  lemma RoundTripG() ensures NativeKey(MapKeys(Glfw.G)) == Glfw.G { MapKeysG(); NativeKeyG(); }
  lemma RoundTripH() ensures NativeKey(MapKeys(Glfw.H)) == Glfw.H { MapKeysH(); NativeKeyH(); }
  lemma RoundTripI() ensures NativeKey(MapKeys(Glfw.I)) == Glfw.I { MapKeysI(); NativeKeyI(); }
  lemma RoundTripJ() ensures NativeKey(MapKeys(Glfw.J)) == Glfw.J { MapKeysJ(); NativeKeyJ(); }
  lemma RoundTripK() ensures NativeKey(MapKeys(Glfw.K)) == Glfw.K { MapKeysK(); NativeKeyK(); }
  lemma RoundTripL() ensures NativeKey(MapKeys(Glfw.L)) == Glfw.L { MapKeysL(); NativeKeyL(); }
  lemma RoundTripM() ensures NativeKey(MapKeys(Glfw.M)) == Glfw.M { MapKeysM(); NativeKeyM(); }
  lemma RoundTripN() ensures NativeKey(MapKeys(Glfw.N)) == Glfw.N { MapKeysN(); NativeKeyN(); }
  lemma RoundTripO() ensures NativeKey(MapKeys(Glfw.O)) == Glfw.O { MapKeysO(); NativeKeyO(); }
  lemma RoundTripP() ensures NativeKey(MapKeys(Glfw.P)) == Glfw.P { MapKeysP(); NativeKeyP(); }
  lemma RoundTripQ() ensures NativeKey(MapKeys(Glfw.Q)) == Glfw.Q { MapKeysQ(); NativeKeyQ(); }
  lemma RoundTripR() ensures NativeKey(MapKeys(Glfw.R)) == Glfw.R { MapKeysR(); NativeKeyR(); }
  lemma RoundTripS() ensures NativeKey(MapKeys(Glfw.S)) == Glfw.S { MapKeysS(); NativeKeyS(); }
  lemma RoundTripT() ensures NativeKey(MapKeys(Glfw.T)) == Glfw.T { MapKeysT(); NativeKeyT(); }
  lemma RoundTripU() ensures NativeKey(MapKeys(Glfw.U)) == Glfw.U { MapKeysU(); NativeKeyU(); }
  lemma RoundTripV() ensures NativeKey(MapKeys(Glfw.V)) == Glfw.V { MapKeysV(); NativeKeyV(); }
  lemma RoundTripW() ensures NativeKey(MapKeys(Glfw.W)) == Glfw.W { MapKeysW(); NativeKeyW(); }
  lemma RoundTripX() ensures NativeKey(MapKeys(Glfw.X)) == Glfw.X { MapKeysX(); NativeKeyX(); }
  lemma RoundTripY() ensures NativeKey(MapKeys(Glfw.Y)) == Glfw.Y { MapKeysY(); NativeKeyY(); }
  lemma RoundTripZ() ensures NativeKey(MapKeys(Glfw.Z)) == Glfw.Z { MapKeysZ(); NativeKeyZ(); }
  lemma RoundTripLeftBracket() ensures NativeKey(MapKeys(Glfw.LeftBracket)) == Glfw.LeftBracket { MapKeysLeftBracket(); NativeKeyLeftBracket(); }
  lemma RoundTripBackslash() ensures NativeKey(MapKeys(Glfw.Backslash)) == Glfw.Backslash { MapKeysBackslash(); NativeKeyBackslash(); }
  lemma RoundTripRightBracket() ensures NativeKey(MapKeys(Glfw.RightBracket)) == Glfw.RightBracket { MapKeysRightBracket(); NativeKeyRightBracket(); }
  lemma RoundTripGraveAccent() ensures NativeKey(MapKeys(Glfw.GraveAccent)) == Glfw.GraveAccent { MapKeysGraveAccent(); NativeKeyGraveAccent(); }
  lemma RoundTripWorld1() ensures NativeKey(MapKeys(Glfw.World1)) == Glfw.World1 { MapKeysWorld1(); NativeKeyWorld1(); }
  lemma RoundTripWorld2() ensures NativeKey(MapKeys(Glfw.World2)) == Glfw.World2 { MapKeysWorld2(); NativeKeyWorld2(); }
  lemma RoundTripEscape() ensures NativeKey(MapKeys(Glfw.Escape)) == Glfw.Escape { MapKeysEscape(); NativeKeyEscape(); }
  lemma RoundTripEnter() ensures NativeKey(MapKeys(Glfw.Enter)) == Glfw.Enter { MapKeysEnter(); NativeKeyEnter(); }
  lemma RoundTripTab() ensures NativeKey(MapKeys(Glfw.Tab)) == Glfw.Tab { MapKeysTab(); NativeKeyTab(); }
  lemma RoundTripBackspace() ensures NativeKey(MapKeys(Glfw.Backspace)) == Glfw.Backspace { MapKeysBackspace(); NativeKeyBackspace(); }
  lemma RoundTripInsert() ensures NativeKey(MapKeys(Glfw.Insert)) == Glfw.Insert { MapKeysInsert(); NativeKeyInsert(); }
  lemma RoundTripDelete() ensures NativeKey(MapKeys(Glfw.Delete)) == Glfw.Delete { MapKeysDelete(); NativeKeyDelete(); }
  lemma RoundTripRight() ensures NativeKey(MapKeys(Glfw.Right)) == Glfw.Right { MapKeysRight(); NativeKeyRight(); }
  lemma RoundTripLeft() ensures NativeKey(MapKeys(Glfw.Left)) == Glfw.Left { MapKeysLeft(); NativeKeyLeft(); }
  lemma RoundTripDown() ensures NativeKey(MapKeys(Glfw.Down)) == Glfw.Down { MapKeysDown(); NativeKeyDown(); }
  lemma RoundTripUp() ensures NativeKey(MapKeys(Glfw.Up)) == Glfw.Up { MapKeysUp(); NativeKeyUp(); }
  lemma RoundTripPageUp() ensures NativeKey(MapKeys(Glfw.PageUp)) == Glfw.PageUp { MapKeysPageUp(); NativeKeyPageUp(); }
  lemma RoundTripPageDown() ensures NativeKey(MapKeys(Glfw.PageDown)) == Glfw.PageDown { MapKeysPageDown(); NativeKeyPageDown(); }
  lemma RoundTripHome() ensures NativeKey(MapKeys(Glfw.Home)) == Glfw.Home { MapKeysHome(); NativeKeyHome(); }
  lemma RoundTripEnd() ensures NativeKey(MapKeys(Glfw.End)) == Glfw.End { MapKeysEnd(); NativeKeyEnd(); }
  lemma RoundTripCapsLock() ensures NativeKey(MapKeys(Glfw.CapsLock)) == Glfw.CapsLock { MapKeysCapsLock(); NativeKeyCapsLock(); }
  lemma RoundTripScrollLock() ensures NativeKey(MapKeys(Glfw.ScrollLock)) == Glfw.ScrollLock { MapKeysScrollLock(); NativeKeyScrollLock(); }
  lemma RoundTripNumLock() ensures NativeKey(MapKeys(Glfw.NumLock)) == Glfw.NumLock { MapKeysNumLock(); NativeKeyNumLock(); }
  lemma RoundTripPrintScreen() ensures NativeKey(MapKeys(Glfw.PrintScreen)) == Glfw.PrintScreen { MapKeysPrintScreen(); NativeKeyPrintScreen(); }
  lemma RoundTripPause() ensures NativeKey(MapKeys(Glfw.Pause)) == Glfw.Pause { MapKeysPause(); NativeKeyPause(); }
  lemma RoundTripF1() ensures NativeKey(MapKeys(Glfw.F1)) == Glfw.F1 { MapKeysF1(); NativeKeyF1(); }
  lemma RoundTripF2() ensures NativeKey(MapKeys(Glfw.F2)) == Glfw.F2 { MapKeysF2(); NativeKeyF2(); }
  lemma RoundTripF3() ensures NativeKey(MapKeys(Glfw.F3)) == Glfw.F3 { MapKeysF3(); NativeKeyF3(); }
  lemma RoundTripF4() ensures NativeKey(MapKeys(Glfw.F4)) == Glfw.F4 { MapKeysF4(); NativeKeyF4(); }
  lemma RoundTripF5() ensures NativeKey(MapKeys(Glfw.F5)) == Glfw.F5 { MapKeysF5(); NativeKeyF5(); }
  lemma RoundTripF6() ensures NativeKey(MapKeys(Glfw.F6)) == Glfw.F6 { MapKeysF6(); NativeKeyF6(); }
  lemma RoundTripF7() ensures NativeKey(MapKeys(Glfw.F7)) == Glfw.F7 { MapKeysF7(); NativeKeyF7(); }
  lemma RoundTripF8() ensures NativeKey(MapKeys(Glfw.F8)) == Glfw.F8 { MapKeysF8(); NativeKeyF8(); }
  lemma RoundTripF9() ensures NativeKey(MapKeys(Glfw.F9)) == Glfw.F9 { MapKeysF9(); NativeKeyF9(); }
  lemma RoundTripF10() ensures NativeKey(MapKeys(Glfw.F10)) == Glfw.F10 { MapKeysF10(); NativeKeyF10(); }
  lemma RoundTripF11() ensures NativeKey(MapKeys(Glfw.F11)) == Glfw.F11 { MapKeysF11(); NativeKeyF11(); }
  lemma RoundTripF12() ensures NativeKey(MapKeys(Glfw.F12)) == Glfw.F12 { MapKeysF12(); NativeKeyF12(); }
  lemma RoundTripF13() ensures NativeKey(MapKeys(Glfw.F13)) == Glfw.F13 { MapKeysF13(); NativeKeyF13(); }
  lemma RoundTripF14() ensures NativeKey(MapKeys(Glfw.F14)) == Glfw.F14 { MapKeysF14(); NativeKeyF14(); }
  lemma RoundTripF15() ensures NativeKey(MapKeys(Glfw.F15)) == Glfw.F15 { MapKeysF15(); NativeKeyF15(); }
  lemma RoundTripF16() ensures NativeKey(MapKeys(Glfw.F16)) == Glfw.F16 { MapKeysF16(); NativeKeyF16(); }
  lemma RoundTripF17() ensures NativeKey(MapKeys(Glfw.F17)) == Glfw.F17 { MapKeysF17(); NativeKeyF17(); }
  lemma RoundTripF18() ensures NativeKey(MapKeys(Glfw.F18)) == Glfw.F18 { MapKeysF18(); NativeKeyF18(); }
  lemma RoundTripF19() ensures NativeKey(MapKeys(Glfw.F19)) == Glfw.F19 { MapKeysF19(); NativeKeyF19(); }
  lemma RoundTripF20() ensures NativeKey(MapKeys(Glfw.F20)) == Glfw.F20 { MapKeysF20(); NativeKeyF20(); }
  lemma RoundTripF21() ensures NativeKey(MapKeys(Glfw.F21)) == Glfw.F21 { MapKeysF21(); NativeKeyF21(); }
  lemma RoundTripF22() ensures NativeKey(MapKeys(Glfw.F22)) == Glfw.F22 { MapKeysF22(); NativeKeyF22(); }
  lemma RoundTripF23() ensures NativeKey(MapKeys(Glfw.F23)) == Glfw.F23 { MapKeysF23(); NativeKeyF23(); }
  lemma RoundTripF24() ensures NativeKey(MapKeys(Glfw.F24)) == Glfw.F24 { MapKeysF24(); NativeKeyF24(); }
  lemma RoundTripF25() ensures NativeKey(MapKeys(Glfw.F25)) == Glfw.F25 { MapKeysF25(); NativeKeyF25(); }
  lemma RoundTripKp0() ensures NativeKey(MapKeys(Glfw.Kp0)) == Glfw.Kp0 { MapKeysKp0(); NativeKeyKp0(); }
  lemma RoundTripKp1() ensures NativeKey(MapKeys(Glfw.Kp1)) == Glfw.Kp1 { MapKeysKp1(); NativeKeyKp1(); }
  lemma RoundTripKp2() ensures NativeKey(MapKeys(Glfw.Kp2)) == Glfw.Kp2 { MapKeysKp2(); NativeKeyKp2(); }
  lemma RoundTripKp3() ensures NativeKey(MapKeys(Glfw.Kp3)) == Glfw.Kp3 { MapKeysKp3(); NativeKeyKp3(); }
  lemma RoundTripKp4() ensures NativeKey(MapKeys(Glfw.Kp4)) == Glfw.Kp4 { MapKeysKp4(); NativeKeyKp4(); }
  lemma RoundTripKp5() ensures NativeKey(MapKeys(Glfw.Kp5)) == Glfw.Kp5 { MapKeysKp5(); NativeKeyKp5(); }
  lemma RoundTripKp6() ensures NativeKey(MapKeys(Glfw.Kp6)) == Glfw.Kp6 { MapKeysKp6(); NativeKeyKp6(); }
  lemma RoundTripKp7() ensures NativeKey(MapKeys(Glfw.Kp7)) == Glfw.Kp7 { MapKeysKp7(); NativeKeyKp7(); }
  lemma RoundTripKp8() ensures NativeKey(MapKeys(Glfw.Kp8)) == Glfw.Kp8 { MapKeysKp8(); NativeKeyKp8(); }
  lemma RoundTripKp9() ensures NativeKey(MapKeys(Glfw.Kp9)) == Glfw.Kp9 { MapKeysKp9(); NativeKeyKp9(); }
  lemma RoundTripKpDecimal() ensures NativeKey(MapKeys(Glfw.KpDecimal)) == Glfw.KpDecimal { MapKeysKpDecimal(); NativeKeyKpDecimal(); }
  lemma RoundTripKpDivide() ensures NativeKey(MapKeys(Glfw.KpDivide)) == Glfw.KpDivide { MapKeysKpDivide(); NativeKeyKpDivide(); }
  lemma RoundTripKpMultiply() ensures NativeKey(MapKeys(Glfw.KpMultiply)) == Glfw.KpMultiply { MapKeysKpMultiply(); NativeKeyKpMultiply(); }
  lemma RoundTripKpSubtract() ensures NativeKey(MapKeys(Glfw.KpSubtract)) == Glfw.KpSubtract { MapKeysKpSubtract(); NativeKeyKpSubtract(); }
  lemma RoundTripKpAdd() ensures NativeKey(MapKeys(Glfw.KpAdd)) == Glfw.KpAdd { MapKeysKpAdd(); NativeKeyKpAdd(); }
  lemma RoundTripKpEnter() ensures NativeKey(MapKeys(Glfw.KpEnter)) == Glfw.KpEnter { MapKeysKpEnter(); NativeKeyKpEnter(); }
  lemma RoundTripKpEqual() ensures NativeKey(MapKeys(Glfw.KpEqual)) == Glfw.KpEqual { MapKeysKpEqual(); NativeKeyKpEqual(); }
  lemma RoundTripLeftShift() ensures NativeKey(MapKeys(Glfw.LeftShift)) == Glfw.LeftShift { MapKeysLeftShift(); NativeKeyLeftShift(); }
  lemma RoundTripLeftControl() ensures NativeKey(MapKeys(Glfw.LeftControl)) == Glfw.LeftControl { MapKeysLeftControl(); NativeKeyLeftControl(); }
  lemma RoundTripLeftAlt() ensures NativeKey(MapKeys(Glfw.LeftAlt)) == Glfw.LeftAlt { MapKeysLeftAlt(); NativeKeyLeftAlt(); }
  lemma RoundTripLeftSuper() ensures NativeKey(MapKeys(Glfw.LeftSuper)) == Glfw.LeftSuper { MapKeysLeftSuper(); NativeKeyLeftSuper(); }
  lemma RoundTripRightShift() ensures NativeKey(MapKeys(Glfw.RightShift)) == Glfw.RightShift { MapKeysRightShift(); NativeKeyRightShift(); }
  lemma RoundTripRightControl() ensures NativeKey(MapKeys(Glfw.RightControl)) == Glfw.RightControl { MapKeysRightControl(); NativeKeyRightControl(); }
  lemma RoundTripRightAlt() ensures NativeKey(MapKeys(Glfw.RightAlt)) == Glfw.RightAlt { MapKeysRightAlt(); NativeKeyRightAlt(); }
  lemma RoundTripRightSuper() ensures NativeKey(MapKeys(Glfw.RightSuper)) == Glfw.RightSuper { MapKeysRightSuper(); NativeKeyRightSuper(); }
  lemma RoundTripMenu() ensures NativeKey(MapKeys(Glfw.Menu)) == Glfw.Menu { MapKeysMenu(); NativeKeyMenu(); }
  lemma RoundTripUnknown() ensures NativeKey(MapKeys(Glfw.Unknown)) == Glfw.Unknown { MapKeysUnknown(); NativeKeyUnknown(); }

  /** NativeKey undoes MapKeys, for every backend key. */
  lemma NativeKeyOfMapKeys(k: Glfw.Key)
    ensures NativeKey(MapKeys(k)) == k
  {
    match k
    case Space => RoundTripSpace();
    case Apostrophe => RoundTripApostrophe();
    case Comma => RoundTripComma();
    case Minus => RoundTripMinus();
    case Period => RoundTripPeriod();
    case Slash => RoundTripSlash();
    case Num0 => RoundTripNum0();
    case Num1 => RoundTripNum1();
    case Num2 => RoundTripNum2();
    case Num3 => RoundTripNum3();
    case Num4 => RoundTripNum4();
    case Num5 => RoundTripNum5();
    case Num6 => RoundTripNum6();
    case Num7 => RoundTripNum7();
    case Num8 => RoundTripNum8();
    case Num9 => RoundTripNum9();
    case Semicolon => RoundTripSemicolon();
    case Equal => RoundTripEqual();
    case A => RoundTripA();
    case B => RoundTripB();
    case C => RoundTripC();
    case D => RoundTripD();
    case E => RoundTripE();
    case F => RoundTripF();
    case G => RoundTripG();
    case H => RoundTripH();
    case I => RoundTripI();
    case J => RoundTripJ();
    case K => RoundTripK();
    case L => RoundTripL();
    case M => RoundTripM();
    case N => RoundTripN();
    case O => RoundTripO();
    case P => RoundTripP();
    case Q => RoundTripQ();
    case R => RoundTripR();
    case S => RoundTripS();
    case T => RoundTripT();
    case U => RoundTripU();
    case V => RoundTripV();
    case W => RoundTripW();
    case X => RoundTripX();
    case Y => RoundTripY();
    case Z => RoundTripZ();
    case LeftBracket => RoundTripLeftBracket();
    case Backslash => RoundTripBackslash();
    case RightBracket => RoundTripRightBracket();
    case GraveAccent => RoundTripGraveAccent();
    case World1 => RoundTripWorld1();
    case World2 => RoundTripWorld2();
    case Escape => RoundTripEscape();
    case Enter => RoundTripEnter();
    case Tab => RoundTripTab();
    case Backspace => RoundTripBackspace();
    case Insert => RoundTripInsert();
    case Delete => RoundTripDelete();
    case Right => RoundTripRight();
    case Left => RoundTripLeft();
    case Down => RoundTripDown();
    case Up => RoundTripUp();
    case PageUp => RoundTripPageUp();
    case PageDown => RoundTripPageDown();
    case Home => RoundTripHome();
    case End => RoundTripEnd();
    case CapsLock => RoundTripCapsLock();
    case ScrollLock => RoundTripScrollLock();
    case NumLock => RoundTripNumLock();
    case PrintScreen => RoundTripPrintScreen();
    case Pause => RoundTripPause();
    case F1 => RoundTripF1();
    case F2 => RoundTripF2();
    case F3 => RoundTripF3();
    case F4 => RoundTripF4();
    case F5 => RoundTripF5();
    case F6 => RoundTripF6();
    case F7 => RoundTripF7();
    case F8 => RoundTripF8();
    case F9 => RoundTripF9();
    case F10 => RoundTripF10();
    case F11 => RoundTripF11();
    case F12 => RoundTripF12();
    case F13 => RoundTripF13();
    case F14 => RoundTripF14();
    case F15 => RoundTripF15();
    case F16 => RoundTripF16();
    case F17 => RoundTripF17();
    case F18 => RoundTripF18();
    case F19 => RoundTripF19();
    case F20 => RoundTripF20();
    case F21 => RoundTripF21();
    case F22 => RoundTripF22();
    case F23 => RoundTripF23();
    case F24 => RoundTripF24();
    case F25 => RoundTripF25();
    case Kp0 => RoundTripKp0();
    case Kp1 => RoundTripKp1();
    case Kp2 => RoundTripKp2();
    case Kp3 => RoundTripKp3();
    case Kp4 => RoundTripKp4();
    case Kp5 => RoundTripKp5();
    case Kp6 => RoundTripKp6();
    case Kp7 => RoundTripKp7();
    case Kp8 => RoundTripKp8();
    case Kp9 => RoundTripKp9();
    case KpDecimal => RoundTripKpDecimal();
    case KpDivide => RoundTripKpDivide();
    case KpMultiply => RoundTripKpMultiply();
    case KpSubtract => RoundTripKpSubtract();
    case KpAdd => RoundTripKpAdd();
    case KpEnter => RoundTripKpEnter();
    case KpEqual => RoundTripKpEqual();
    case LeftShift => RoundTripLeftShift();
    case LeftControl => RoundTripLeftControl();
    case LeftAlt => RoundTripLeftAlt();
    case LeftSuper => RoundTripLeftSuper();
    case RightShift => RoundTripRightShift();
    case RightControl => RoundTripRightControl();
    case RightAlt => RoundTripRightAlt();
    case RightSuper => RoundTripRightSuper();
    case Menu => RoundTripMenu();
    case Unknown => RoundTripUnknown();
  }

  /** No two backend keys become the same engine key. */
  lemma MapKeysInjective()
    ensures forall a: Glfw.Key, b: Glfw.Key :: MapKeys(a) == MapKeys(b) ==> a == b
  {
    forall a: Glfw.Key, b: Glfw.Key | MapKeys(a) == MapKeys(b) ensures a == b {
      NativeKeyOfMapKeys(a);
      NativeKeyOfMapKeys(b);
    }
  }

  // ---------------------------------------------------------------------
  // Translating polled events
  // ---------------------------------------------------------------------

  /** A key or mouse-button event can be read back from its queue entry,
      with a click's cursor position as the entry records it. */
  lemma TranslateRoundTrip(event: Glfw.WindowEvent)
    ensures !event.OtherEvent? ==> Untranslate(Translate(event)[0]) == Some(Recorded(event))
  {
    match event
    case KeyEvent(key, action) =>
      NativeKeyOfMapKeys(key);
      MapActionBijective();
    case MouseButtonEvent(button, action, _, _) =>
      MapMouseButtonInverse();
      MapActionBijective();
    case OtherEvent =>
  }

  /** Translating two batches one after the other gives the entries of
      translating them as one. */
  lemma {:induction false} TranslateAllAppend(a: seq<Glfw.WindowEvent>, b: seq<Glfw.WindowEvent>)
    ensures TranslateAll(a + b) == TranslateAll(a) + TranslateAll(b)
    decreases |b|
  {
    if b == [] {
      assert a + b == a;
    } else {
      var b' := b[..|b| - 1];
      assert (a + b)[..|a + b| - 1] == a + b';
      assert (a + b)[|a + b| - 1] == b[|b| - 1];
      TranslateAllAppend(a, b');
    }
  }

  /** Appending the translation of one event adds the position queried
      for it when it is a mouse-button event, and no position otherwise. */
  lemma PressPositionsTranslate(entries: seq<GsnEvent>, event: Glfw.WindowEvent)
    ensures PressPositions(entries + Translate(event)) ==
      PressPositions(entries) +
        if event.MouseButtonEvent? then [CursorPos(event.cursorX, event.cursorY)] else []
  {
    if !event.OtherEvent? {
      assert (entries + Translate(event))[..|entries|] == entries;
    } else {
      assert entries + Translate(event) == entries;
    }
  }

  /** The mouse presses of a batch's entries carry, in order, the cursor
      positions queried for the batch's mouse-button events. */
  lemma {:induction false} TranslateAllPositions(events: seq<Glfw.WindowEvent>)
    ensures PressPositions(TranslateAll(events)) == ClickPositions(events)
  {
    if events != [] {
      var init := events[..|events| - 1];
      TranslateAllPositions(init);
      PressPositionsTranslate(TranslateAll(init), events[|events| - 1]);
    }
  }

  /** The entries of a batch are the translations of its key and
      mouse-button events, one entry per event and in the order polled, and
      each reports its event back. */
  lemma {:induction false} TranslateAllReportsInputs(events: seq<Glfw.WindowEvent>)
    ensures |TranslateAll(events)| == |InputEvents(events)|
    ensures forall i | 0 <= i < |InputEvents(events)| ::
      TranslateAll(events)[i] == Translate(InputEvents(events)[i])[0]
    ensures forall i | 0 <= i < |InputEvents(events)| ::
      Untranslate(TranslateAll(events)[i]) == Some(Recorded(InputEvents(events)[i]))
  {
    if events != [] {
      var init, last := events[..|events| - 1], events[|events| - 1];
      TranslateAllReportsInputs(init);
      TranslateRoundTrip(last);
      forall i | 0 <= i < |InputEvents(events)|
        ensures Untranslate(TranslateAll(events)[i]) == Some(Recorded(InputEvents(events)[i]))
      {
        TranslateRoundTrip(InputEvents(events)[i]);
      }
    }
  }
}
