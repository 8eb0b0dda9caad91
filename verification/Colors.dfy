/** Conversion of colour codes in chat messages. A message is a sequence of bytes. */
module Colors {
  import opened Blocks
  import opened Options

  const AMPERSAND: byte := '&' as int
  const PERCENT: byte := '%' as int

  /** A custom colour and the standard one that replaces it for clients without the extension. */
  datatype ColorDesc = ColorDesc(code: byte, fallback: byte)

  predicate IsStandard(code: byte) {
    ('a' as int <= code <= 'f' as int) || ('0' as int <= code <= '9' as int)
  }

  predicate IsUpper(code: byte) {
    'A' as int <= code <= 'F' as int
  }

  /** The first custom colour with the code. */
  function FindColor(colors: seq<ColorDesc>, code: byte): Option<ColorDesc> {
    if colors == [] then None
    else if colors[0].code == code then Some(colors[0])
    else FindColor(colors[1..], code)
  }

  /** What an escape code turns into for a client. */
  function Conversion(colors: seq<ColorDesc>, textColors: bool, code: byte): Option<byte> {
    if IsStandard(code) then Some(code)
    else if IsUpper(code) then Some(code + 32)
    else
      match FindColor(colors, code)
      case None => None
      case Some(desc) => Some(if textColors then desc.code else desc.fallback)
  }

  predicate IsEscape(c: byte) {
    c == AMPERSAND || c == PERCENT
  }

  /** The message with every escape converted or, if its code means nothing, removed. */
  function Converted(colors: seq<ColorDesc>, textColors: bool, message: seq<byte>): seq<byte> {
    if message == [] then []
    else if IsEscape(message[0]) && |message| > 1 then
      (match Conversion(colors, textColors, message[1])
       case Some(code) => [AMPERSAND, code]
       case None => [])
      + Converted(colors, textColors, message[2..])
    else [message[0]] + Converted(colors, textColors, message[1..])
  }

  class Player {
    /** The server's custom colours and whether the client supports them. */
    var colors: seq<ColorDesc>
    var textColors: bool

    constructor (colors: seq<ColorDesc>, textColors: bool)
      ensures this.colors == colors && this.textColors == textColors
    {
      this.colors, this.textColors := colors, textColors;
    }

    /** Digits and the letters a to f stay, A to F become small letters, and any other code is looked
        up among the custom colours: the first one with the code decides, and without one the code
        means nothing. The numbers are those of the ASCII characters. */
    method ConvertColor(code: byte) returns (result: byte, ok: bool)
      ensures ok == Conversion(colors, textColors, code).Some?
      ensures ok ==> result == Conversion(colors, textColors, code).value
      ensures 48 <= code <= 57 || 97 <= code <= 102 ==> ok && result == code
      ensures 65 <= code <= 70 ==> ok && 97 <= result <= 102 && result - 97 == code - 65
      ensures !(48 <= code <= 57 || 65 <= code <= 70 || 97 <= code <= 102) ==>
                && (ok <==> exists k :: 0 <= k < |colors| && colors[k].code == code)
                && (forall k :: 0 <= k < |colors| && colors[k].code == code
                                && (forall j :: 0 <= j < k ==> colors[j].code != code) ==>
                      result == if textColors then code else colors[k].fallback)
    {
      if ('a' as int <= code <= 'f' as int) || ('0' as int <= code <= '9' as int) {
        return code, true;
      }
      if 'A' as int <= code <= 'F' as int {
        return code + 32, true;
      }
      assert colors[0..] == colors;
      for i := 0 to |colors|
        invariant FindColor(colors[i..], code) == FindColor(colors, code)
        invariant forall j :: 0 <= j < i ==> colors[j].code != code
      {
        if colors[i].code == code {
          if textColors {
            return colors[i].code, true;
          } else {
            return colors[i].fallback, true;
          }
        }
        assert colors[i..][1..] == colors[i + 1..];
      }
      return 0, false;
    }

    /** A message with neither `&` (38) nor `%` (37) stays as it is. */
    method ConvertMessage(message: seq<byte>) returns (result: seq<byte>)
      ensures result == Converted(colors, textColors, message)
      ensures (forall k :: 0 <= k < |message| ==> message[k] != 38 && message[k] != 37) ==> result == message
    {
      hide Converted, Conversion;
      result := [];
      var i := 0;
      assert message[0..] == message;
      while i < |message|
        invariant 0 <= i <= |message|
        invariant result + Converted(colors, textColors, message[i..]) == Converted(colors, textColors, message)
      {
        ConvertedStep(colors, textColors, result, message, i);
        var c := message[i];
        if (c == PERCENT || c == AMPERSAND) && i < |message| - 1 {
          i := i + 1;
          var code, ok := ConvertColor(message[i]);
          if ok {
            result := result + [AMPERSAND, code];
          }
        } else {
          result := result + [c];
        }
        i := i + 1;
      }
      ConvertedEnd(colors, textColors, result, message);
      PlainUnchanged(colors, textColors, message);
    }
  }

  lemma ConvertedStep(colors: seq<ColorDesc>, textColors: bool, done: seq<byte>, message: seq<byte>, i: nat)
    requires i < |message|
    ensures done + Converted(colors, textColors, message[i..]) ==
            if IsEscape(message[i]) && i < |message| - 1 then
              match Conversion(colors, textColors, message[i + 1])
              case Some(code) => done + [AMPERSAND, code] + Converted(colors, textColors, message[i + 2..])
              case None => done + Converted(colors, textColors, message[i + 2..])
            else done + [message[i]] + Converted(colors, textColors, message[i + 1..])
  {
    var m := message[i..];
    assert m[1..] == message[i + 1..];
    if IsEscape(message[i]) && i < |message| - 1 {
      assert m[2..] == message[i + 2..];
    }
  }

  lemma ConvertedEnd(colors: seq<ColorDesc>, textColors: bool, done: seq<byte>, message: seq<byte>)
    ensures done + Converted(colors, textColors, message[|message|..]) == done
  {
  }

  // ------------------------------------------------------------------
  // What conversion does to a message, part by part.

  lemma {:induction false} PlainUnchanged(colors: seq<ColorDesc>, textColors: bool, message: seq<byte>)
    ensures (forall k :: 0 <= k < |message| ==> message[k] != 38 && message[k] != 37) ==>
              Converted(colors, textColors, message) == message
  {
    if message != [] {
      PlainUnchanged(colors, textColors, message[1..]);
      if forall k :: 0 <= k < |message| ==> message[k] != 38 && message[k] != 37 {
        forall k | 0 <= k < |message[1..]|
          ensures message[1..][k] != 38 && message[1..][k] != 37
        {
          assert message[1..][k] == message[k + 1];
        }
        assert message == [message[0]] + message[1..];
      }
    }
  }

  /** An escape on its own: `&` and the converted code, or nothing if the code means nothing. */
  lemma ConvertedEscape(colors: seq<ColorDesc>, textColors: bool, escape: byte, code: byte)
    requires escape == 38 || escape == 37
    ensures var out := Converted(colors, textColors, [escape, code]);
            && (48 <= code <= 57 || 97 <= code <= 102 ==> out == [38, code])
            && (65 <= code <= 70 ==> out == [38, code + 32])
            && (!(48 <= code <= 57 || 65 <= code <= 70 || 97 <= code <= 102) ==>
                  && ((forall k :: 0 <= k < |colors| ==> colors[k].code != code) ==> out == [])
                  && (forall k :: 0 <= k < |colors| && colors[k].code == code
                                  && (forall j :: 0 <= j < k ==> colors[j].code != code) ==>
                        out == [38, if textColors then code else colors[k].fallback]))
  {
    OneEscape(colors, textColors, escape, code);
    hide Converted;
    forall k | 0 <= k < |colors| && colors[k].code == code && forall j :: 0 <= j < k ==> colors[j].code != code
      ensures FindColor(colors, code) == Some(colors[k])
    {
      FirstFound(colors, code, k);
    }
    FoundColor(colors, code);
    hide FindColor;
  }

  lemma OneEscape(colors: seq<ColorDesc>, textColors: bool, escape: byte, code: byte)
    requires IsEscape(escape)
    ensures Converted(colors, textColors, [escape, code]) ==
            match Conversion(colors, textColors, code)
            case Some(c) => [AMPERSAND, c]
            case None => []
  {
    hide Conversion;
    assert [escape, code][2..] == [];
  }

  lemma {:induction false} FirstFound(colors: seq<ColorDesc>, code: byte, k: nat)
    requires k < |colors| && colors[k].code == code && forall j :: 0 <= j < k ==> colors[j].code != code
    ensures FindColor(colors, code) == Some(colors[k])
  {
    if k > 0 {
      FirstFound(colors[1..], code, k - 1);
    }
  }

  /** The message ends with an escape character that is not itself the code of one before it. */
  predicate EndsInEscape(message: seq<byte>) {
    if message == [] then false
    else if IsEscape(message[0]) then |message| == 1 || EndsInEscape(message[2..])
    else EndsInEscape(message[1..])
  }

  /** Two messages sent as one are converted as the two would be, if the first does not end inside an
      escape; in particular if its last character is neither `&` nor `%`. */
  lemma {:induction false} ConvertedConcat(colors: seq<ColorDesc>, textColors: bool, a: seq<byte>, b: seq<byte>)
    requires !EndsInEscape(a)
    ensures Converted(colors, textColors, a + b)
         == Converted(colors, textColors, a) + Converted(colors, textColors, b)
  {
    hide Converted, Conversion;
    if a == [] {
      assert a + b == b;
      NothingConverted(colors, textColors);
    } else {
      var n := if IsEscape(a[0]) then 2 else 1;
      ConvertedHead(colors, textColors, a);
      ConvertedHead(colors, textColors, a + b);
      assert (a + b)[n..] == a[n..] + b && (a + b)[..n] == a[..n];
      ConvertedConcat(colors, textColors, a[n..], b);
    }
  }

  lemma NothingConverted(colors: seq<ColorDesc>, textColors: bool)
    ensures Converted(colors, textColors, []) == []
  {
  }

  /** The conversion of the first character or escape comes first. */
  lemma ConvertedHead(colors: seq<ColorDesc>, textColors: bool, message: seq<byte>)
    requires message != []
    ensures Converted(colors, textColors, message) ==
            if IsEscape(message[0]) && |message| > 1 then
              Converted(colors, textColors, message[..2]) + Converted(colors, textColors, message[2..])
            else [message[0]] + Converted(colors, textColors, message[1..])
  {
    if IsEscape(message[0]) && |message| > 1 {
      OneEscape(colors, textColors, message[0], message[1]);
      assert message[..2] == [message[0], message[1]];
    }
  }

  lemma {:induction false} EndsOutside(message: seq<byte>)
    ensures message == [] || (message[|message| - 1] != 38 && message[|message| - 1] != 37) ==>
              !EndsInEscape(message)
  {
    if message != [] {
      var n := if IsEscape(message[0]) && |message| > 1 then 2 else 1;
      EndsOutside(message[n..]);
    }
  }

  /** It holds of every second message exactly if the first does not end inside an escape. */
  lemma {:induction false} SplitsIffComplete(colors: seq<ColorDesc>, textColors: bool, a: seq<byte>)
    ensures !EndsInEscape(a) <==>
            forall b :: Converted(colors, textColors, a + b)
                     == Converted(colors, textColors, a) + Converted(colors, textColors, b)
  {
    if EndsInEscape(a) {
      Swallowed(colors, textColors, a);
    } else {
      forall b
        ensures Converted(colors, textColors, a + b)
             == Converted(colors, textColors, a) + Converted(colors, textColors, b)
      {
        ConvertedConcat(colors, textColors, a, b);
      }
    }
  }

  /** The escape at the end takes the A that follows for its code. */
  lemma {:induction false} Swallowed(colors: seq<ColorDesc>, textColors: bool, a: seq<byte>)
    requires EndsInEscape(a)
    ensures var out := Converted(colors, textColors, a + [65]);
            && |out| >= 1 && out[|out| - 1] == 97
            && Converted(colors, textColors, a) + Converted(colors, textColors, [65]) != out
  {
    var n := if IsEscape(a[0]) then 2 else 1;
    if n == 2 && |a| == 1 {
      assert (a + [65])[2..] == [];
    } else {
      assert (a + [65])[n..] == a[n..] + [65];
      Swallowed(colors, textColors, a[n..]);
    }
    assert [65][1..] == [];
    assert Converted(colors, textColors, [65]) == [65];
  }

  /** "&CHi" becomes "&cHi", and "50%" stays. */
  lemma ConvertedExamples(colors: seq<ColorDesc>, textColors: bool)
    ensures Converted(colors, textColors, [38, 67, 72, 105]) == [38, 99, 72, 105]
    ensures Converted(colors, textColors, [53, 48, 37]) == [53, 48, 37]
  {
    ConvertedEscape(colors, textColors, 38, 67);
    PlainUnchanged(colors, textColors, [72, 105]);
    ConvertedConcat(colors, textColors, [38, 67], [72, 105]);
    assert [38, 67] + [72, 105] == [38, 67, 72, 105];
    PlainUnchanged(colors, textColors, [53, 48]);
    ConvertedConcat(colors, textColors, [53, 48], [37]);
    assert [53, 48] + [37] == [53, 48, 37];
    assert Converted(colors, textColors, [37]) == [37] by { assert [37][1..] == []; }
  }

  // ------------------------------------------------------------------
  // Laws.

  ghost predicate Produced(colors: seq<ColorDesc>, textColors: bool, c: byte) {
    exists code :: Conversion(colors, textColors, code) == Some(c)
  }

  /** Every `&` but a final one introduces a code that the conversion produced, and every `%`
      but a final one is such a code. */
  ghost predicate WellEscaped(colors: seq<ColorDesc>, textColors: bool, out: seq<byte>) {
    if out == [] then true
    else if out[0] == AMPERSAND && |out| > 1 then
      Produced(colors, textColors, out[1]) && WellEscaped(colors, textColors, out[2..])
    else (IsEscape(out[0]) ==> |out| == 1) && WellEscaped(colors, textColors, out[1..])
  }

  lemma {:induction false} OutputWellEscaped(colors: seq<ColorDesc>, textColors: bool, message: seq<byte>)
    ensures WellEscaped(colors, textColors, Converted(colors, textColors, message))
  {
    if message == [] {
    } else if IsEscape(message[0]) && |message| > 1 {
      var rest := Converted(colors, textColors, message[2..]);
      OutputWellEscaped(colors, textColors, message[2..]);
      match Conversion(colors, textColors, message[1])
      case Some(code) =>
        assert ([AMPERSAND, code] + rest)[2..] == rest;
        assert Produced(colors, textColors, code);
      case None =>
        assert [] + rest == rest;
    } else {
      var rest := Converted(colors, textColors, message[1..]);
      OutputWellEscaped(colors, textColors, message[1..]);
      assert ([message[0]] + rest)[1..] == rest;
    }
  }

  /** The colour that a code turns into is one that stays as it is. */
  ghost predicate StableColors(colors: seq<ColorDesc>, textColors: bool) {
    forall code: byte, c: byte :: Conversion(colors, textColors, code) == Some(c) ==>
      Conversion(colors, textColors, c) == Some(c)
  }

  lemma {:induction false} ConvertedTwice(colors: seq<ColorDesc>, textColors: bool, message: seq<byte>)
    requires StableColors(colors, textColors)
    ensures var out := Converted(colors, textColors, message);
            Converted(colors, textColors, out) == out
  {
    hide FindColor;
    if message == [] {
    } else if IsEscape(message[0]) && |message| > 1 {
      var rest := Converted(colors, textColors, message[2..]);
      ConvertedTwice(colors, textColors, message[2..]);
      match Conversion(colors, textColors, message[1])
      case Some(code) =>
        assert ([AMPERSAND, code] + rest)[2..] == rest;
      case None =>
        assert [] + rest == rest;
    } else {
      var rest := Converted(colors, textColors, message[1..]);
      ConvertedTwice(colors, textColors, message[1..]);
      assert ([message[0]] + rest)[1..] == rest;
    }
  }

  /** Converting a message twice is the same as converting it once, for all messages, exactly
      when every produced colour is stable. */
  lemma IdempotentIffStable(colors: seq<ColorDesc>, textColors: bool)
    ensures (forall message :: Converted(colors, textColors, Converted(colors, textColors, message))
                            == Converted(colors, textColors, message))
            <==> StableColors(colors, textColors)
  {
    if StableColors(colors, textColors) {
      forall message
        ensures Converted(colors, textColors, Converted(colors, textColors, message))
             == Converted(colors, textColors, message)
      {
        ConvertedTwice(colors, textColors, message);
      }
    } else {
      var code, c :| Conversion(colors, textColors, code) == Some(c) && Conversion(colors, textColors, c) != Some(c);
      Unstable(colors, textColors, code, c);
    }
  }

  lemma Unstable(colors: seq<ColorDesc>, textColors: bool, code: byte, c: byte)
    requires Conversion(colors, textColors, code) == Some(c) && Conversion(colors, textColors, c) != Some(c)
    ensures var out := Converted(colors, textColors, [AMPERSAND, code]);
            Converted(colors, textColors, out) != out
  {
    var message := [AMPERSAND, code];
    assert message[2..] == [];
    assert Converted(colors, textColors, message) == [AMPERSAND, c];
    assert [AMPERSAND, c][2..] == [];
  }

  lemma {:induction false} FoundColor(colors: seq<ColorDesc>, code: byte)
    ensures FindColor(colors, code).Some? ==>
              FindColor(colors, code).value in colors && FindColor(colors, code).value.code == code
  {
    if colors != [] && colors[0].code != code {
      FoundColor(colors[1..], code);
    }
  }

  /** Colours are stable for clients that know them, and for all clients when the fallbacks are
      standard colours. */
  lemma StandardFallbacks(colors: seq<ColorDesc>, textColors: bool)
    requires textColors || forall desc :: desc in colors ==> IsStandard(desc.fallback)
    ensures StableColors(colors, textColors)
  {
    forall code: byte, c: byte | Conversion(colors, textColors, code) == Some(c)
      ensures Conversion(colors, textColors, c) == Some(c)
    {
      FoundColor(colors, code);
    }
  }
}
