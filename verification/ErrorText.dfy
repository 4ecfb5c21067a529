/** The text classifiers of AasdkErrorClassification.h, and what they recognise in a canonical AASDK message. */
module ErrorText {

  predicate At(text: string, part: string, i: int) {
    0 <= i && i + |part| <= |text| && text[i..i + |part|] == part
  }

  predicate Contains(text: string, part: string) {
    exists i :: 0 <= i <= |text| && At(text, part, i)
  }

  function Digit(n: nat): char
    requires n < 10
  {
    '0' + n as char
  }

  function Decimal(n: nat): (text: string)
    ensures |text| > 0 && forall i :: 0 <= i < |text| ==> '0' <= text[i] <= '9'
  {
    if n < 10 then [Digit(n)] else Decimal(n / 10) + [Digit(n % 10)]
  }

  function SignedDecimal(n: int): string {
    if n < 0 then "-" + Decimal(-n) else Decimal(n)
  }

  // ----- the classifiers -----

  const ERROR_KEY := "AASDK Error: "
  const NATIVE_KEY := "Native Code: "

  predicate HasCode(text: string, code: nat) {
    Contains(text, ERROR_KEY + Decimal(code))
  }

  predicate HasNative(text: string, native: int) {
    Contains(text, NATIVE_KEY + SignedDecimal(native))
  }

  predicate IsUsbTransfer(text: string, native: nat) {
    HasCode(text, 10) && HasNative(text, native)
  }

  predicate IsRecoverableUsbReceive(text: string) {
    || IsUsbTransfer(text, 1)
    || IsUsbTransfer(text, 2)
    || IsUsbTransfer(text, 5)
    || (HasCode(text, 10) && HasNative(text, -4))
  }

  predicate IsUsbTransferTimeout(text: string) {
    IsUsbTransfer(text, 2)
  }

  predicate IsUsbTransferNoDevice(text: string) {
    IsUsbTransfer(text, 5)
  }

  predicate IsTransportNoDevice(text: string) {
    && HasNative(text, 5)
    && (HasCode(text, 10) || HasCode(text, 25) || HasCode(text, 26) || HasCode(text, 27)
        || HasCode(text, 28) || HasCode(text, 33))
  }

  predicate IsSslWrapperNoDevice(text: string) {
    HasCode(text, 25) && HasNative(text, 5)
  }

  predicate IsOperationAborted(text: string) {
    HasCode(text, 30)
  }

  /** On arbitrary strings: timeouts and USB no-device errors are recoverable, and USB and SSL
      no-device errors are transport no-device errors. */
  lemma ClassifierInclusions(text: string)
    ensures IsUsbTransferTimeout(text) || IsUsbTransferNoDevice(text) ==> IsRecoverableUsbReceive(text)
    ensures IsUsbTransferNoDevice(text) || IsSslWrapperNoDevice(text) ==> IsTransportNoDevice(text)
  {
    hide HasCode, HasNative;
  }

  // ----- canonical messages -----

  const MIDDLE := ", Native Code: "
  const INFO_KEY := ", Additional Information: "

  /** aasdk::error::Error::what(). */
  function What(code: nat, native: int, info: string): string {
    ERROR_KEY + Decimal(code) + MIDDLE + SignedDecimal(native) + INFO_KEY + info
  }

  /** Additional information that does not itself look like an AASDK message. */
  predicate PlainInfo(info: string) {
    !Contains(info, ERROR_KEY) && !Contains(info, NATIVE_KEY)
  }

  lemma ContainsTail(text: string, part: string, key: string, info: string, i: nat)
    requires key <= part && At(text, part, i)
    requires |info| <= |text| && i >= |text| - |info| && text[|text| - |info|..] == info
    ensures Contains(info, key)
  {
    var j := i - (|text| - |info|);
    assert info[j..j + |key|] == text[i..i + |part|][..|key|] == key;
    assert At(info, key, j);
  }

  lemma CharAt(text: string, part: string, i: nat, k: nat)
    requires At(text, part, i) && k < |part|
    ensures text[i + k] == part[k]
  {
    assert text[i..i + |part|][k] == text[i + k];
  }

  function Head(code: nat, native: int): string {
    ERROR_KEY + (Decimal(code) + (MIDDLE + (SignedDecimal(native) + INFO_KEY)))
  }

  lemma WhatIsHeadAndInfo(code: nat, native: int, info: string)
    ensures What(code, native, info) == Head(code, native) + info
  {
    hide Decimal, SignedDecimal;
    Regroup(ERROR_KEY, Decimal(code), MIDDLE, SignedDecimal(native), INFO_KEY, info);
  }

  lemma Regroup(a: string, b: string, c: string, d: string, e: string, info: string)
    ensures a + b + c + d + e + info == (a + (b + (c + (d + e)))) + info
  {
  }

  lemma RegroupFromCode(a: string, b: string, c: string, d: string, e: string, info: string)
    ensures a + b + c + d + e + info == a + (b + (c + (d + (e + info))))
  {
  }

  lemma AbsentFromConcat(c: char, a: string, b: string)
    requires c !in a && c !in b
    ensures c !in a + b
  {
  }

  lemma AbsentFromNumbers(code: nat, native: int, c: char)
    requires c > '9'
    ensures c !in Decimal(code) && c !in SignedDecimal(native)
  {
    hide Decimal;
    if native < 0 {
      assert c !in Decimal(-native);
      AbsentFromConcat(c, "-", Decimal(-native));
    }
  }

  /** The only capital S of a message head is that of AASDK, and it ends in a colon and a space. */
  lemma HeadErrorKey(code: nat, native: int)
    ensures var head := Head(code, native);
            && |head| >= 2 && head[|head| - 1] == ' ' && head[|head| - 2] == ':'
            && forall j :: 0 <= j < |head| && j != 2 ==> head[j] != 'S'
  {
    hide Decimal, SignedDecimal;
    AbsentFromNumbers(code, native, 'S');
    var end := SignedDecimal(native) + INFO_KEY;
    assert 'S' !in INFO_KEY && 'S' !in MIDDLE;
    AbsentFromConcat('S', SignedDecimal(native), INFO_KEY);
    AbsentFromConcat('S', MIDDLE, end);
    AbsentFromConcat('S', Decimal(code), MIDDLE + end);
    var tail := Decimal(code) + (MIDDLE + end);
    var head := Head(code, native);
    assert head == ERROR_KEY + tail;
    forall j | 0 <= j < |head| && j != 2 ensures head[j] != 'S' {
      if j < |ERROR_KEY| {
        KeyLetters();
      } else {
        assert head[j] == tail[j - |ERROR_KEY|] && tail[j - |ERROR_KEY|] in tail;
      }
    }
    assert INFO_KEY[|INFO_KEY| - 1] == ' ' && INFO_KEY[|INFO_KEY| - 2] == ':';
    assert head[|head| - 1] == end[|end| - 1] == INFO_KEY[|INFO_KEY| - 1];
    assert head[|head| - 2] == end[|end| - 2] == INFO_KEY[|INFO_KEY| - 2];
  }

  lemma KeyLetters()
    ensures forall j :: 0 <= j < |ERROR_KEY| && j != 2 ==> ERROR_KEY[j] != 'S'
    ensures forall j :: 0 <= j < |MIDDLE| && j != 2 ==> MIDDLE[j] != 'N'
  {
  }

  /** The only capital N of a message head is that of the native code. */
  lemma HeadNativeKey(code: nat, native: int)
    ensures forall j :: 0 <= j < |Head(code, native)| && j != |ERROR_KEY| + |Decimal(code)| + 2 ==>
              Head(code, native)[j] != 'N'
  {
    hide Decimal, SignedDecimal;
    AbsentFromNumbers(code, native, 'N');
    var end := SignedDecimal(native) + INFO_KEY;
    assert 'N' !in INFO_KEY && 'N' !in ERROR_KEY;
    AbsentFromConcat('N', SignedDecimal(native), INFO_KEY);
    AbsentFromConcat('N', ERROR_KEY, Decimal(code));
    var start := ERROR_KEY + Decimal(code);
    var head := Head(code, native);
    assert head == start + (MIDDLE + end);
    forall j | 0 <= j < |head| && j != |start| + 2 ensures head[j] != 'N' {
      if j < |start| {
        assert head[j] == start[j] && start[j] in start;
      } else if j < |start| + |MIDDLE| {
        KeyLetters();
        assert head[j] == MIDDLE[j - |start|];
      } else {
        assert head[j] == end[j - |start| - |MIDDLE|] && end[j - |start| - |MIDDLE|] in end;
      }
    }
  }

  /** In a canonical message the error key starts only at the beginning. */
  lemma ErrorKeyPosition(code: nat, native: int, info: string, part: string, i: nat)
    requires PlainInfo(info) && ERROR_KEY <= part && At(What(code, native, info), part, i)
    ensures i == 0
  {
    hide Contains, Head, What;
    var text, head := What(code, native, info), Head(code, native);
    WhatIsHeadAndInfo(code, native, info);
    HeadErrorKey(code, native);
    assert part[0] == ERROR_KEY[0] == 'A' && part[2] == ERROR_KEY[2] == 'S';
    CharAt(text, part, i, 0);
    CharAt(text, part, i, 2);
    if i >= |head| {
      assert text[|text| - |info|..] == info;
      ContainsTail(text, part, ERROR_KEY, info, i);
    }
  }

  /** In a canonical message the native key starts only after the error code. */
  lemma NativeKeyPosition(code: nat, native: int, info: string, part: string, i: nat)
    requires PlainInfo(info) && NATIVE_KEY <= part && At(What(code, native, info), part, i)
    ensures i == |ERROR_KEY| + |Decimal(code)| + 2
  {
    hide Contains, Head, What, Decimal;
    var text, head := What(code, native, info), Head(code, native);
    WhatIsHeadAndInfo(code, native, info);
    HeadNativeKey(code, native);
    assert part[0] == NATIVE_KEY[0] == 'N';
    CharAt(text, part, i, 0);
    if i >= |head| {
      assert text[|text| - |info|..] == info;
      ContainsTail(text, part, NATIVE_KEY, info, i);
    }
  }

  /** Digits found at the front of digits followed by a comma are a prefix of the digits. */
  lemma DigitsBeforeComma(d: string, number: string, rest: string)
    requires |rest| > 0 && rest[0] == ',' && d <= number + rest
    requires forall i :: 0 <= i < |d| ==> d[i] != ','
    ensures d <= number
  {
    var whole := number + rest;
    assert forall i :: 0 <= i < |d| ==> d[i] == whole[i];
    assert whole[|number|] == ',';
    assert |d| <= |number|;
    assert whole[..|d|] == number[..|d|];
  }

  /** The error-code test sees a prefix of the decimal code: code 100 would pass for 10. */
  lemma HasCodeMeaning(code: nat, native: int, info: string, k: nat)
    requires PlainInfo(info)
    ensures HasCode(What(code, native, info), k) <==> Decimal(k) <= Decimal(code)
  {
    hide PlainInfo, Decimal, SignedDecimal;
    var text, part := What(code, native, info), ERROR_KEY + Decimal(k);
    var rest := MIDDLE + (SignedDecimal(native) + (INFO_KEY + info));
    RegroupFromCode(ERROR_KEY, Decimal(code), MIDDLE, SignedDecimal(native), INFO_KEY, info);
    if HasCode(text, k) {
      var i :| 0 <= i <= |text| && At(text, part, i);
      ErrorKeyPosition(code, native, info, part, i);
      KeyedPrefix(ERROR_KEY, Decimal(k), Decimal(code) + rest);
      assert rest[0] == MIDDLE[0] == ',';
      DigitsBeforeComma(Decimal(k), Decimal(code), rest);
    }
    if Decimal(k) <= Decimal(code) {
      KeyedAt("", ERROR_KEY, Decimal(k), Decimal(code), rest);
      assert "" + text == text;
      assert At(text, part, 0);
    }
  }

  lemma KeyedPrefix(key: string, d: string, rest: string)
    requires At(key + rest, key + d, 0)
    ensures d <= rest
  {
    assert (key + rest)[0..|key + d|] == key + d;
    assert (key + d)[|key|..] == d;
    assert (key + rest)[|key|..|key| + |d|] == rest[..|d|];
  }

  lemma KeyedAt(before: string, key: string, d: string, number: string, rest: string)
    requires d <= number
    ensures At(before + (key + (number + rest)), key + d, |before|)
  {
    var text := before + (key + (number + rest));
    var n := |before| + |key| + |d|;
    assert number == d + number[|d|..];
    assert text[|before|..n] == key + d;
  }

  /** The native-code test sees a prefix of the signed decimal native code. */
  lemma HasNativeMeaning(code: nat, native: int, info: string, k: int)
    requires PlainInfo(info)
    ensures HasNative(What(code, native, info), k) <==> SignedDecimal(k) <= SignedDecimal(native)
  {
    hide PlainInfo, Decimal, SignedDecimal, What;
    var text, part := What(code, native, info), NATIVE_KEY + SignedDecimal(k);
    var before, rest := ERROR_KEY + Decimal(code) + ", ", INFO_KEY + info;
    NativeSplit(code, native, info);
    if HasNative(text, k) {
      var i :| 0 <= i <= |text| && At(text, part, i);
      NativeKeyPosition(code, native, info, part, i);
      AtSuffix(before, NATIVE_KEY + (SignedDecimal(native) + rest), part);
      KeyedPrefix(NATIVE_KEY, SignedDecimal(k), SignedDecimal(native) + rest);
      assert rest[0] == INFO_KEY[0] == ',';
      NoCommaInNumber(k);
      DigitsBeforeComma(SignedDecimal(k), SignedDecimal(native), rest);
    }
    if SignedDecimal(k) <= SignedDecimal(native) {
      KeyedAt(before, NATIVE_KEY, SignedDecimal(k), SignedDecimal(native), rest);
      assert At(text, part, |before|);
    }
  }

  lemma NoCommaInNumber(k: int)
    ensures forall i :: 0 <= i < |SignedDecimal(k)| ==> SignedDecimal(k)[i] != ','
  {
    hide Decimal;
  }

  lemma NativeSplit(code: nat, native: int, info: string)
    ensures What(code, native, info) ==
            (ERROR_KEY + Decimal(code) + ", ") + (NATIVE_KEY + (SignedDecimal(native) + (INFO_KEY + info)))
  {
    hide Decimal, SignedDecimal;
    assert MIDDLE == ", " + NATIVE_KEY;
    var a, b, c, d, e := ERROR_KEY + Decimal(code), ", ", NATIVE_KEY, SignedDecimal(native), INFO_KEY;
    assert a + (b + c) + d + e + info == (a + b) + (c + (d + (e + info)));
  }

  lemma AtSuffix(before: string, text: string, part: string)
    requires At(before + text, part, |before|)
    ensures At(text, part, 0)
  {
    assert (before + text)[|before|..|before| + |part|] == text[..|part|];
  }

  lemma SmallDecimals(n: nat, k: nat)
    requires k < 10
    ensures Decimal(k) == [Digit(k)]
    ensures n < 10 ==> (Decimal(k) <= Decimal(n) <==> k == n)
    ensures n < 100 ==> (Decimal(10) <= Decimal(n) <==> n == 10)
  {
    assert Decimal(10) == [Digit(1)] + [Digit(0)];
    if n < 10 && Decimal(k) <= Decimal(n) {
      assert Decimal(k)[0] == Decimal(n)[0];
    }
    if 10 <= n < 100 {
      assert Decimal(n / 10) == [Digit(n / 10)];
      assert Decimal(n) == [Digit(n / 10), Digit(n % 10)];
      assert Decimal(10) == [Digit(1), Digit(0)];
      if Decimal(10) <= Decimal(n) {
        assert Decimal(10)[0] == Decimal(n)[0] && Decimal(10)[1] == Decimal(n)[1];
        assert n / 10 == 1 && n % 10 == 0;
      }
    }
  }

  /** On AASDK's two-digit error codes and libusb's one-digit native codes the test is exact. */
  lemma UsbTransferIsExactOnSmallCodes(code: nat, native: int, info: string, k: nat)
    requires PlainInfo(info) && code < 100 && -10 < native < 10 && k < 10
    ensures IsUsbTransfer(What(code, native, info), k) <==> code == 10 && native == k
  {
    hide What, PlainInfo, HasCode, HasNative, Decimal;
    HasCodeMeaning(code, native, info, 10);
    HasNativeMeaning(code, native, info, k);
    SmallDecimals(code, k);
    if native >= 0 {
      SmallDecimals(native, k);
    } else {
      assert SignedDecimal(native)[0] == '-';
      SmallDecimals(0, k);
    }
  }

  lemma TwoDigits(n: nat, k: nat)
    requires n < 100 && 10 <= k < 100
    ensures Decimal(k) <= Decimal(n) <==> n == k
  {
    TwoDigitText(k);
    if n < 10 {
      assert |Decimal(n)| == 1;
    } else {
      TwoDigitText(n);
      if Decimal(k) <= Decimal(n) {
        assert Decimal(k)[0] == Decimal(n)[0] && Decimal(k)[1] == Decimal(n)[1];
      }
    }
  }

  lemma TwoDigitText(n: nat)
    requires 10 <= n < 100
    ensures Decimal(n) == [Digit(n / 10), Digit(n % 10)]
  {
    assert Decimal(n / 10) == [Digit(n / 10)];
  }

  lemma OneDigitNative(native: int, k: int)
    requires -10 < native < 10 && -10 < k < 10
    ensures SignedDecimal(k) <= SignedDecimal(native) <==> native == k
  {
    if k < 0 {
      assert SignedDecimal(k) == ['-', Digit(-k)];
    } else {
      assert SignedDecimal(k) == [Digit(k)];
    }
    if native < 0 {
      assert SignedDecimal(native) == ['-', Digit(-native)];
    } else {
      assert SignedDecimal(native) == [Digit(native)];
    }
    if SignedDecimal(k) <= SignedDecimal(native) {
      assert SignedDecimal(k)[0] == SignedDecimal(native)[0];
      if k < 0 {
        assert SignedDecimal(k)[1] == SignedDecimal(native)[1];
      }
    }
  }

  /** Beyond them it is not: it accepts every native code that starts with the same digits. */
  lemma UsbTransferMatchesPrefixes(code: nat, native: int, info: string, k: nat)
    requires PlainInfo(info)
    ensures IsUsbTransfer(What(code, native, info), k) <==>
            Decimal(10) <= Decimal(code) && Decimal(k) <= SignedDecimal(native)
    ensures IsUsbTransfer(What(10, 10 * k + 1, info), k) || k == 0
  {
    hide What, PlainInfo, HasCode, HasNative;
    HasCodeMeaning(code, native, info, 10);
    HasNativeMeaning(code, native, info, k);
    HasCodeMeaning(10, 10 * k + 1, info, 10);
    HasNativeMeaning(10, 10 * k + 1, info, k);
    if k > 0 {
      assert (10 * k + 1) / 10 == k;
      assert Decimal(10 * k + 1) == Decimal(k) + [Digit(1)];
    }
  }

  // ----- what onChannelError derives from a text -----

  const VERSION_TIMEOUT := "Version request timed out after"
  const HANDSHAKE_TIMEOUT := "Handshake activation timed out after"

  datatype ErrorClass = ErrorClass(timeout: bool, noDevice: bool, recoverable: bool, sslNoDevice: bool,
                                   aborted: bool, versionTimeout: bool, handshakeTimeout: bool)

  function Classify(control: bool, text: string): ErrorClass {
    ErrorClass(
      IsUsbTransferTimeout(text),
      IsUsbTransferNoDevice(text) || IsTransportNoDevice(text),
      IsRecoverableUsbReceive(text),
      IsSslWrapperNoDevice(text),
      IsOperationAborted(text),
      control && VERSION_TIMEOUT <= text,
      control && HANDSHAKE_TIMEOUT <= text)
  }

  function HandshakeTimeoutText(ms: nat): string {
    HANDSHAKE_TIMEOUT + " " + Decimal(ms) + " ms"
  }

  function VersionTimeoutText(ms: nat, attempts: nat): string {
    VERSION_TIMEOUT + " " + Decimal(ms) + " ms (" + Decimal(attempts) + " attempts)"
  }

  function VersionAttemptsText(attempts: nat): string {
    VERSION_TIMEOUT + " " + Decimal(attempts) + " attempts"
  }

  /** What the error classes stand for, on the messages AASDK and libusb can give: aborted is code 30; a
      timeout is USB code 10 with native code 2; the phone is gone when any transport layer has
      native code 5; and the receives are re-armed on USB code 10 with native codes 1, 2, 5 and -4. */
  lemma SmallCodesMean(code: nat, native: int, info: string)
    requires PlainInfo(info) && code < 100 && -10 < native < 10
    ensures var text := What(code, native, info);
            && (IsOperationAborted(text) <==> code == 30)
            && (IsUsbTransferTimeout(text) <==> code == 10 && native == 2)
            && (IsUsbTransferNoDevice(text) <==> code == 10 && native == 5)
            && (IsSslWrapperNoDevice(text) <==> code == 25 && native == 5)
            && (IsTransportNoDevice(text) <==> code in {10, 25, 26, 27, 28, 33} && native == 5)
            && (IsRecoverableUsbReceive(text) <==> code == 10 && native in {1, 2, 5, -4})
  {
    forall k: nat | 10 <= k < 100 ensures HasCode(What(code, native, info), k) <==> code == k {
      HasCodeMeaning(code, native, info, k);
      TwoDigits(code, k);
    }
    forall k: int | -10 < k < 10 ensures HasNative(What(code, native, info), k) <==> native == k {
      HasNativeMeaning(code, native, info, k);
      OneDigitNative(native, k);
    }
    hide What, PlainInfo, HasCode, HasNative, Decimal;
  }

  lemma MessageStarts(code: nat, native: int, info: string)
    ensures var text := What(code, native, info); !(VERSION_TIMEOUT <= text) && !(HANDSHAKE_TIMEOUT <= text)
  {
    hide Decimal, SignedDecimal;
    var text := What(code, native, info);
    assert text[0] == ERROR_KEY[0] == 'A';
    assert VERSION_TIMEOUT[0] == 'V' && HANDSHAKE_TIMEOUT[0] == 'H';
  }

  /** So on such messages onChannelError derives, whatever the channel, exactly this. */
  lemma SmallCodesClassify(code: nat, native: int, info: string, control: bool)
    requires PlainInfo(info) && code < 100 && -10 < native < 10
    ensures Classify(control, What(code, native, info)) ==
            ErrorClass(code == 10 && native == 2,
                       code in {10, 25, 26, 27, 28, 33} && native == 5,
                       code == 10 && native in {1, 2, 5, -4},
                       code == 25 && native == 5,
                       code == 30,
                       false, false)
  {
    hide What, PlainInfo, IsUsbTransferTimeout, IsUsbTransferNoDevice, IsTransportNoDevice, IsRecoverableUsbReceive,
      IsSslWrapperNoDevice, IsOperationAborted;
    SmallCodesMean(code, native, info);
    MessageStarts(code, native, info);
  }

  lemma NoCodeWithoutA(text: string, code: nat)
    requires 'A' !in text
    ensures !HasCode(text, code)
  {
    hide Decimal;
    var part := ERROR_KEY + Decimal(code);
    forall i | 0 <= i <= |text| ensures !At(text, part, i) {
      if i + |part| <= |text| {
        assert text[i] in text && text[i] != part[0];
        assert text[i..i + |part|][0] != part[0];
      }
    }
  }

  /** The service's own timeout messages are never mistaken for transport errors. */
  lemma TimeoutTextsAreTimeouts(ms: nat, attempts: nat)
    ensures Classify(true, HandshakeTimeoutText(ms)) == ErrorClass(false, false, false, false, false, false, true)
    ensures Classify(true, VersionTimeoutText(ms, attempts)) ==
            ErrorClass(false, false, false, false, false, true, false)
    ensures Classify(true, VersionAttemptsText(attempts)) == ErrorClass(false, false, false, false, false, true, false)
  {
    hide Decimal, HasCode;
    TimeoutPrefix(HANDSHAKE_TIMEOUT, " " + Decimal(ms) + " ms");
    TimeoutPrefix(VERSION_TIMEOUT, " " + Decimal(ms) + " ms (" + Decimal(attempts) + " attempts)");
    TimeoutPrefix(VERSION_TIMEOUT, " " + Decimal(attempts) + " attempts");
    assert HANDSHAKE_TIMEOUT + (" " + Decimal(ms) + " ms") == HandshakeTimeoutText(ms);
    assert VERSION_TIMEOUT + (" " + Decimal(ms) + " ms (" + Decimal(attempts) + " attempts)") ==
           VersionTimeoutText(ms, attempts);
    assert VERSION_TIMEOUT + (" " + Decimal(attempts) + " attempts") == VersionAttemptsText(attempts);
  }

  /** On any other channel they are nothing. */
  lemma OnlyControlTimesOut(ms: nat, attempts: nat)
    ensures var none := ErrorClass(false, false, false, false, false, false, false);
            && Classify(false, HandshakeTimeoutText(ms)) == none
            && Classify(false, VersionTimeoutText(ms, attempts)) == none
            && Classify(false, VersionAttemptsText(attempts)) == none
  {
    hide IsUsbTransferTimeout, IsUsbTransferNoDevice, IsTransportNoDevice, IsRecoverableUsbReceive,
      IsSslWrapperNoDevice, IsOperationAborted, HandshakeTimeoutText, VersionTimeoutText, VersionAttemptsText;
    TimeoutTextsAreTimeouts(ms, attempts);
  }

  lemma TimeoutPrefix(start: string, end: string)
    requires start == HANDSHAKE_TIMEOUT || start == VERSION_TIMEOUT
    requires 'A' !in end
    ensures start <= start + end
    ensures start == HANDSHAKE_TIMEOUT ==> !(VERSION_TIMEOUT <= start + end)
    ensures start == VERSION_TIMEOUT ==> !(HANDSHAKE_TIMEOUT <= start + end)
    ensures forall code :: !HasCode(start + end, code)
  {
    hide Decimal, HasCode;
    assert HANDSHAKE_TIMEOUT[0] == 'H' && VERSION_TIMEOUT[0] == 'V';
    assert (start + end)[0] == start[0];
    assert 'A' !in HANDSHAKE_TIMEOUT && 'A' !in VERSION_TIMEOUT;
    AbsentFromConcat('A', start, end);
    forall code ensures !HasCode(start + end, code) {
      NoCodeWithoutA(start + end, code);
    }
  }
}
