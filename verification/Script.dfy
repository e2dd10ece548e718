/** The script push parser and the bare-multisig recogniser, against the grammar of
 * scripts (BIP 11 and BIP 16, "Specification"). */
module Script {
  import opened Prelude

  type Byte = b: int | 0 <= b < 256

  const OP_PUSHBYTES_MIN: Byte := 0x01
  const OP_PUSHBYTES_MAX: Byte := 0x4b
  const OP_PUSHDATA1: Byte := 0x4c
  const OP_PUSHDATA2: Byte := 0x4d
  const OP_PUSHDATA4: Byte := 0x4e
  const OP_1: Byte := 0x51
  const OP_16: Byte := 0x60
  const OP_CHECKMULTISIG: Byte := 0xae

  // ------------------------------------------------------- the grammar of scripts

  /** The four encodings of a push. */
  datatype Form = Direct | Data1 | Data2 | Data4

  datatype Element = Push(form: Form, data: seq<Byte>) | Op(code: Byte)

  /** A script element as it may be written: the length fits its encoding, and an
   * operator is none of the push opcodes (0x00 pushes nothing here). */
  predicate WellFormed(e: Element) {
    match e
    case Push(Direct, data) => 1 <= |data| <= 0x4b
    case Push(Data1, data) => |data| < 0x100
    case Push(Data2, data) => |data| < 0x1_0000
    case Push(Data4, data) => |data| < 0x1_0000_0000
    case Op(code) => code == 0 || code > OP_PUSHDATA4
  }

  function LittleEndian(n: nat, width: nat): (bytes: seq<Byte>)
    ensures |bytes| == width
    decreases width
  {
    if width == 0 then [] else [n % 0x100] + LittleEndian(n / 0x100, width - 1)
  }

  function FromLittleEndian(bytes: seq<Byte>): nat {
    if bytes == [] then 0 else bytes[0] + 0x100 * FromLittleEndian(bytes[1..])
  }

  function Encode(e: Element): seq<Byte>
    requires WellFormed(e)
  {
    match e
    case Push(Direct, data) => [|data|] + data
    case Push(Data1, data) => [OP_PUSHDATA1] + LittleEndian(|data|, 1) + data
    case Push(Data2, data) => [OP_PUSHDATA2] + LittleEndian(|data|, 2) + data
    case Push(Data4, data) => [OP_PUSHDATA4] + LittleEndian(|data|, 4) + data
    case Op(code) => [code]
  }

  predicate AllWellFormed(es: seq<Element>) {
    forall e :: e in es ==> WellFormed(e)
  }

  function EncodeAll(es: seq<Element>): seq<Byte>
    requires AllWellFormed(es)
  {
    if es == [] then [] else Encode(es[0]) + EncodeAll(es[1..])
  }

  /** The data of the last push. */
  function LastPush(es: seq<Element>): Option<seq<Byte>> {
    if es == [] then None
    else if es[|es| - 1].Push? then Some(es[|es| - 1].data) else LastPush(es[..|es| - 1])
  }

  // -------------------------------------------------------------------- reading

  /** How many length bytes follow the opcode of a push. */
  function Width(form: Form): nat {
    match form
    case Direct => 0
    case Data1 => 1
    case Data2 => 2
    case Data4 => 4
  }

  function FormOf(opcode: Byte): Option<Form> {
    if OP_PUSHBYTES_MIN <= opcode <= OP_PUSHBYTES_MAX then Some(Direct)
    else if opcode == OP_PUSHDATA1 then Some(Data1)
    else if opcode == OP_PUSHDATA2 then Some(Data2)
    else if opcode == OP_PUSHDATA4 then Some(Data4)
    else None
  }

  datatype Read = Read(element: Element, size: nat)

  /** The first element of a script; None if it is cut short. */
  function ReadOne(bytes: seq<Byte>): Option<Read>
    requires bytes != []
  {
    var form := FormOf(bytes[0]);
    if form.None? then Some(Read(Op(bytes[0]), 1)) else
      var start := 1 + Width(form.value);
      if |bytes| < start then None else
        var len := if form.value.Direct? then bytes[0] else FromLittleEndian(bytes[1..start]);
        if |bytes| < start + len then None
        else Some(Read(Push(form.value, bytes[start..start + len]), start + len))
  }

  lemma {:induction false} ReadOneSize(bytes: seq<Byte>)
    requires bytes != [] && ReadOne(bytes).Some?
    ensures 1 <= ReadOne(bytes).value.size <= |bytes|
  {
  }

  /** The elements of a script, or None if it ends inside a push. */
  function Parse(bytes: seq<Byte>): Option<seq<Element>>
    decreases |bytes|
  {
    if bytes == [] then Some([]) else
      var first := ReadOne(bytes);
      if first.None? then None else
        ReadOneSize(bytes);
        var rest := Parse(bytes[first.value.size..]);
        if rest.None? then None else Some([first.value.element] + rest.value)
  }

  function Join(es: seq<Element>, rest: Option<seq<Element>>): Option<seq<Element>> {
    if rest.None? then None else Some(es + rest.value)
  }

  lemma {:induction false} LittleEndianRoundTrip(n: nat, width: nat)
    requires (width == 1 && n < 0x100) || (width == 2 && n < 0x1_0000) || (width == 4 && n < 0x1_0000_0000)
    ensures FromLittleEndian(LittleEndian(n, width)) == n
  {
    LittleEndianStep(n, width);
    if width >= 2 {
      LittleEndianStep(n / 0x100, width - 1);
    }
    if width == 4 {
      LittleEndianStep(n / 0x100 / 0x100, 2);
      LittleEndianStep(n / 0x100 / 0x100 / 0x100, 1);
    }
  }

  lemma {:induction false} LittleEndianStep(n: nat, width: nat)
    requires width > 0
    ensures FromLittleEndian(LittleEndian(n, width)) ==
            n % 0x100 + 0x100 * FromLittleEndian(LittleEndian(n / 0x100, width - 1))
    ensures FromLittleEndian(LittleEndian(n, 0)) == 0
  {
    assert LittleEndian(n, width)[1..] == LittleEndian(n / 0x100, width - 1);
  }

  lemma {:induction false} FromLittleEndianBounds(bytes: seq<Byte>)
    requires |bytes| == 1 || |bytes| == 2 || |bytes| == 4
    ensures |bytes| == 1 ==> FromLittleEndian(bytes) < 0x100
    ensures |bytes| == 2 ==> FromLittleEndian(bytes) < 0x1_0000
    ensures |bytes| == 4 ==> FromLittleEndian(bytes) < 0x1_0000_0000
    ensures LittleEndian(FromLittleEndian(bytes), |bytes|) == bytes
  {
    FromStep(bytes);
    if |bytes| >= 2 {
      FromStep(bytes[1..]);
    }
    if |bytes| == 4 {
      FromStep(bytes[1..][1..]);
      FromStep(bytes[1..][1..][1..]);
    }
  }

  lemma {:induction false} FromStep(bytes: seq<Byte>)
    requires bytes != []
    ensures var n := FromLittleEndian(bytes);
            && n == bytes[0] + 0x100 * FromLittleEndian(bytes[1..])
            && n % 0x100 == bytes[0] && n / 0x100 == FromLittleEndian(bytes[1..])
            && LittleEndian(n, |bytes|) == [bytes[0]] + LittleEndian(n / 0x100, |bytes| - 1)
    ensures [bytes[0]] + bytes[1..] == bytes
    ensures FromLittleEndian([]) == 0 && LittleEndian(0, 0) == []
  {
  }

  lemma {:induction false} ReadOneIs(tail: seq<Byte>, form: Form, start: nat, len: nat)
    requires tail != [] && FormOf(tail[0]) == Some(form) && start == 1 + Width(form) <= |tail|
    requires len == if form.Direct? then tail[0] else FromLittleEndian(tail[1..start])
    ensures ReadOne(tail) == if |tail| < start + len then None
                             else Some(Read(Push(form, tail[start..start + len]), start + len))
  {
  }

  lemma {:induction false} CutInLength(tail: seq<Byte>, form: Form)
    requires tail != [] && FormOf(tail[0]) == Some(form) && |tail| < 1 + Width(form)
    ensures ReadOne(tail).None?
  {
  }

  lemma {:induction false} Pieces(op: Byte, length: seq<Byte>, data: seq<Byte>, rest: seq<Byte>, bytes: seq<Byte>)
    requires bytes == [op] + length + data + rest
    ensures bytes[0] == op && bytes[1..1 + |length|] == length
    ensures |bytes| >= 1 + |length| + |data| && bytes[1 + |length|..1 + |length| + |data|] == data
  {
  }

  function OpcodeOf(form: Form, data: seq<Byte>): Byte
    requires WellFormed(Push(form, data))
  {
    match form
    case Direct => |data|
    case Data1 => OP_PUSHDATA1
    case Data2 => OP_PUSHDATA2
    case Data4 => OP_PUSHDATA4
  }

  lemma {:induction false} EncodePush(form: Form, data: seq<Byte>)
    requires WellFormed(Push(form, data))
    ensures Encode(Push(form, data)) == [OpcodeOf(form, data)] + LittleEndian(|data|, Width(form)) + data
    ensures FormOf(OpcodeOf(form, data)) == Some(form)
  {
  }

  /** Reading what was written gives it back, whatever follows. */
  lemma {:induction false} ReadEncoded(e: Element, rest: seq<Byte>)
    requires WellFormed(e)
    ensures ReadOne(Encode(e) + rest) == Some(Read(e, |Encode(e)|))
  {
    if e.Push? {
      var form, data, length := e.form, e.data, LittleEndian(|e.data|, Width(e.form));
      EncodePush(form, data);
      Pieces(OpcodeOf(form, data), length, data, rest, Encode(e) + rest);
      if !form.Direct? {
        LittleEndianRoundTrip(|data|, Width(form));
      }
      ReadOneIs(Encode(e) + rest, form, 1 + Width(form), |data|);
    }
  }

  lemma {:induction false} WrittenBack(bytes: seq<Byte>)
    requires bytes != [] && ReadOne(bytes).Some?
    ensures var r := ReadOne(bytes).value;
            1 <= r.size <= |bytes| && WellFormed(r.element) && Encode(r.element) == bytes[..r.size]
  {
    var r := ReadOne(bytes).value;
    match r.element
    case Op(_) =>
    case Push(form, data) =>
      var start := 1 + Width(form);
      if !form.Direct? {
        FromLittleEndianBounds(bytes[1..start]);
      }
      assert bytes[..r.size] == [bytes[0]] + bytes[1..start] + data;
  }

  /** Parsing is the inverse of encoding: every well-formed script is read back. */
  lemma {:induction false} ParseEncoded(es: seq<Element>)
    requires AllWellFormed(es)
    ensures Parse(EncodeAll(es)) == Some(es)
  {
    if es != [] {
      ParseEncoded(es[1..]);
      ReadEncoded(es[0], EncodeAll(es[1..]));
      assert EncodeAll(es)[|Encode(es[0])|..] == EncodeAll(es[1..]);
      assert [es[0]] + es[1..] == es;
    }
  }

  lemma {:induction false} ParseUnfold(bytes: seq<Byte>, r: Read, rest: seq<Byte>)
    requires bytes != [] && ReadOne(bytes) == Some(r) && 1 <= r.size <= |bytes| && rest == bytes[r.size..]
    ensures Parse(bytes) == Join([r.element], Parse(rest))
  {
  }

  lemma {:induction false} EncodeFirst(e: Element, rest: seq<Element>)
    requires WellFormed(e) && AllWellFormed(rest)
    ensures AllWellFormed([e] + rest) && EncodeAll([e] + rest) == Encode(e) + EncodeAll(rest)
  {
    assert ([e] + rest)[1..] == rest;
  }

  lemma {:induction false} ParsedFirst(bytes: seq<Byte>, es: seq<Element>) returns (e: Element, rest: seq<Byte>)
    requires bytes != [] && Parse(bytes) == Some(es)
    ensures es != [] && es[0] == e && Parse(rest) == Some(es[1..])
    ensures WellFormed(e) && Encode(e) + rest == bytes && |rest| < |bytes|
  {
    var r := ReadOne(bytes).value;
    e, rest := r.element, bytes[r.size..];
    WrittenBack(bytes);
    ParseUnfold(bytes, r, rest);
    assert bytes[..r.size] + rest == bytes;
  }

  /** And nothing else is: a byte string parses only as the script it is the encoding of. */
  lemma {:induction false} EncodedParse(bytes: seq<Byte>, es: seq<Element>)
    requires Parse(bytes) == Some(es)
    ensures AllWellFormed(es) && EncodeAll(es) == bytes
    decreases |bytes|
  {
    if bytes != [] {
      var e, rest := ParsedFirst(bytes, es);
      EncodedParse(rest, es[1..]);
      EncodeFirst(e, es[1..]);
      assert [e] + es[1..] == es;
    }
  }

  /** A byte string is a script cut short exactly when no script encodes to it. */
  lemma {:induction false} ParsesIff(bytes: seq<Byte>)
    ensures Parse(bytes).Some? <==> exists es :: AllWellFormed(es) && EncodeAll(es) == bytes
  {
    if Parse(bytes).Some? {
      EncodedParse(bytes, Parse(bytes).value);
    }
    if es :| AllWellFormed(es) && EncodeAll(es) == bytes {
      ParseEncoded(es);
    }
  }

  // ------------------------------------------------------------- last_data_push

  lemma {:induction false} ParseStep(bytes: seq<Byte>, pos: nat, es: seq<Element>, e: Element, next: nat)
    requires pos < |bytes| && Parse(bytes) == Join(es, Parse(bytes[pos..]))
    requires pos < next <= |bytes| && ReadOne(bytes[pos..]) == Some(Read(e, next - pos))
    ensures Parse(bytes) == Join(es + [e], Parse(bytes[next..]))
  {
    assert bytes[pos..][next - pos..] == bytes[next..];
    var rest := Parse(bytes[next..]);
    if rest.Some? {
      assert es + ([e] + rest.value) == es + [e] + rest.value;
    }
  }

  lemma {:induction false} CutShort(bytes: seq<Byte>, pos: nat, es: seq<Element>)
    requires pos < |bytes| && Parse(bytes) == Join(es, Parse(bytes[pos..])) && ReadOne(bytes[pos..]).None?
    ensures Parse(bytes).None?
  {
  }

  /** The length field of a push, or None if the script ends inside it. */
  method PushLength(bytes: seq<Byte>, pos: nat, opcode: Byte, form: Form) returns (r: Option<(nat, nat)>)
    requires pos <= |bytes| && FormOf(opcode) == Some(form)
    ensures r.None? <==> |bytes| < pos + Width(form)
    ensures r.Some? ==>
              && r.value.0 == pos + Width(form)
              && r.value.1 == if form.Direct? then opcode else FromLittleEndian(bytes[pos..pos + Width(form)])
  {
    match form
    case Direct => r := Some((pos, opcode));
    case Data1 =>
      if pos + 1 > |bytes| { return None; }
      FromStep(bytes[pos..pos + 1]);
      r := Some((pos + 1, bytes[pos]));
    case Data2 =>
      if pos + 2 > |bytes| { return None; }
      FromStep(bytes[pos..pos + 2]);
      FromStep(bytes[pos..pos + 2][1..]);
      var b0: int, b1: int := bytes[pos], bytes[pos + 1];
      r := Some((pos + 2, b0 + 0x100 * b1));
    case Data4 =>
      if pos + 4 > |bytes| { return None; }
      var b := bytes[pos..pos + 4];
      FromStep(b);
      FromStep(b[1..]);
      FromStep(b[1..][1..]);
      FromStep(b[1..][1..][1..]);
      var b0: int, b1: int, b2: int, b3: int := b[0], b[1], b[2], b[3];
      r := Some((pos + 4, b0 + 0x100 * b1 + 0x1_0000 * b2 + 0x100_0000 * b3));
  }

  lemma {:induction false} SliceOfTail(bytes: seq<Byte>, from: nat, a: nat, b: nat)
    requires from + b <= |bytes| && a <= b
    ensures bytes[from..][a..b] == bytes[from + a..from + b]
  {
  }

  /** One push whose opcode is at `from`: its data and where it ends. */
  method ReadPush(bytes: seq<Byte>, from: nat, form: Form) returns (r: Option<(seq<Byte>, nat)>)
    requires from < |bytes| && FormOf(bytes[from]) == Some(form)
    ensures r.None? ==> ReadOne(bytes[from..]).None?
    ensures r.Some? ==> from < r.value.1 <= |bytes|
                        && ReadOne(bytes[from..]) == Some(Read(Push(form, r.value.0), r.value.1 - from))
  {
    var opcode := bytes[from];
    ghost var tail := bytes[from..];
    assert tail[0] == opcode;
    var read := PushLength(bytes, from + 1, opcode, form);
    if read.None? {
      CutInLength(tail, form);
      return None;
    }
    var pos, len := read.value.0, read.value.1;
    SliceOfTail(bytes, from, 1, 1 + Width(form));
    ReadOneIs(tail, form, pos - from, len);
    if pos + len > |bytes| {
      return None;
    }
    SliceOfTail(bytes, from, pos - from, pos - from + len);
    r := Some((bytes[pos..pos + len], pos + len));
  }

  /** `last_data_push`: the last push of the script, None when there is no push or the
   * bytes are no script at all. */
  method LastDataPush(bytes: seq<Byte>) returns (last: Option<seq<Byte>>)
    ensures last == if Parse(bytes).Some? then LastPush(Parse(bytes).value) else None
  {
    var pos := 0;
    last := None;
    ghost var es: seq<Element> := [];
    StartOfParse(bytes);
    while pos < |bytes|
      invariant 0 <= pos <= |bytes|
      invariant Parse(bytes) == Join(es, Parse(bytes[pos..])) && last == LastPush(es)
    {
      var form := FormOf(bytes[pos]);
      if form.None? {
        ParseStep(bytes, pos, es, Op(bytes[pos]), pos + 1);
        LastOfLonger(es, Op(bytes[pos]));
        es := es + [Op(bytes[pos])];
        pos := pos + 1;
        continue;
      }
      var read := ReadPush(bytes, pos, form.value);
      if read.None? {
        CutShort(bytes, pos, es);
        return None;
      }
      ParseStep(bytes, pos, es, Push(form.value, read.value.0), read.value.1);
      LastOfLonger(es, Push(form.value, read.value.0));
      es := es + [Push(form.value, read.value.0)];
      last := Some(read.value.0);
      pos := read.value.1;
    }
    assert bytes[|bytes|..] == [] && es + [] == es;
  }

  lemma {:induction false} StartOfParse(bytes: seq<Byte>)
    ensures Parse(bytes) == Join([], Parse(bytes[0..]))
  {
    assert bytes[0..] == bytes;
    if Parse(bytes).Some? {
      assert [] + Parse(bytes).value == Parse(bytes).value;
    }
  }

  lemma {:induction false} LastOfLonger(es: seq<Element>, e: Element)
    ensures LastPush(es + [e]) == if e.Push? then Some(e.data) else LastPush(es)
  {
    assert (es + [e])[..|es + [e]| - 1] == es;
  }

  /** The last push is the one that only operators follow; there is none if all are operators. */
  lemma {:induction false} LastPushIs(es: seq<Element>)
    ensures LastPush(es).Some? ==>
              exists i :: 0 <= i < |es| && es[i].Push? && es[i].data == LastPush(es).value
                          && forall j :: i < j < |es| ==> es[j].Op?
    ensures LastPush(es).None? ==> forall i :: 0 <= i < |es| ==> es[i].Op?
  {
    if es != [] && es[|es| - 1].Op? {
      var before := es[..|es| - 1];
      LastPushIs(before);
      assert forall i :: 0 <= i < |before| ==> before[i] == es[i];
      if LastPush(before).Some? {
        var i :| 0 <= i < |before| && before[i].Push? && before[i].data == LastPush(before).value
                 && forall j :: i < j < |before| ==> before[j].Op?;
        assert es[i].data == LastPush(es).value;
      }
    }
  }

  /** Pushes followed by a push of `r`, in any of the four encodings, give `r` back: for
   * a P2SH-spending scriptSig the last push is the redeem script. */
  lemma {:induction false} RedeemScript(pushes: seq<Element>, form: Form, r: seq<Byte>)
    requires AllWellFormed(pushes) && WellFormed(Push(form, r))
    ensures var es := pushes + [Push(form, r)];
            AllWellFormed(es) && Parse(EncodeAll(es)) == Some(es) && LastPush(es) == Some(r)
  {
    ParseEncoded(pushes + [Push(form, r)]);
  }

  // ---------------------------------------------------------------- is_multisig

  predicate IsKey(k: seq<Byte>) {
    |k| == 33 || |k| == 65
  }

  predicate AreKeys(keys: seq<seq<Byte>>) {
    forall k :: k in keys ==> IsKey(k)
  }

  /** n pushes of 33 or 65 bytes. */
  function EncodeKeys(keys: seq<seq<Byte>>): seq<Byte>
    requires AreKeys(keys)
  {
    if keys == [] then [] else
      var k := keys[|keys| - 1];
      assert IsKey(k);
      EncodeKeys(keys[..|keys| - 1]) + [|k|] + k
  }

  /** OP_m, the keys, OP_n, OP_CHECKMULTISIG. */
  function BareMultisig(m: nat, keys: seq<seq<Byte>>): seq<Byte>
    requires AreKeys(keys) && 1 <= m <= |keys| <= 16
  {
    [OP_1 + m - 1] + EncodeKeys(keys) + [OP_1 + |keys| - 1, OP_CHECKMULTISIG]
  }

  /** m of n, 1 <= m <= n <= 16. */
  ghost predicate IsBareMultisig(bytes: seq<Byte>) {
    exists m: nat, keys :: AreKeys(keys) && 1 <= m <= |keys| <= 16 && bytes == BareMultisig(m, keys)
  }

  lemma {:induction false} KeysLength(keys: seq<seq<Byte>>)
    requires AreKeys(keys)
    ensures |EncodeKeys(keys)| >= 34 * |keys|
  {
    if keys != [] {
      assert IsKey(keys[|keys| - 1]);
      KeysLength(keys[..|keys| - 1]);
    }
  }

  lemma {:induction false} PrefixSlice(a: seq<Byte>, b: seq<Byte>, i: nat, j: nat)
    requires a <= b && i < j <= |a|
    ensures b[i] == a[i] && b[i + 1..j] == a[i + 1..j]
  {
  }

  lemma {:induction false} LastSlice(before: seq<Byte>, k: seq<Byte>, all: seq<Byte>)
    requires IsKey(k) && all == before + [|k|] + k
    ensures |all| == |before| + 1 + |k| && all[|before|] == |k| && all[|before| + 1..|before| + 1 + |k|] == k
  {
  }

  /** Where the first `n` keys end. */
  lemma {:induction false} KeysPrefix(keys: seq<seq<Byte>>, n: nat)
    requires AreKeys(keys) && n < |keys|
    ensures AreKeys(keys[..n]) && IsKey(keys[n])
    ensures var at := |EncodeKeys(keys[..n])|;
            && at + 1 + |keys[n]| <= |EncodeKeys(keys)|
            && EncodeKeys(keys)[at] == |keys[n]|
            && EncodeKeys(keys)[at + 1..at + 1 + |keys[n]|] == keys[n]
            && |EncodeKeys(keys[..n + 1])| == at + 1 + |keys[n]|
  {
    assert keys[n] in keys && keys[..n + 1][..n] == keys[..n];
    var last := |keys| - 1;
    assert IsKey(keys[last]);
    if n < last {
      KeysPrefix(keys[..last], n);
      assert keys[..last][..n] == keys[..n] && keys[..last][..n + 1] == keys[..n + 1];
      var at, k := |EncodeKeys(keys[..n])|, |keys[n]|;
      PrefixSlice(EncodeKeys(keys[..last]), EncodeKeys(keys), at, at + 1 + k);
    } else {
      assert keys[..n + 1] == keys;
      LastSlice(EncodeKeys(keys[..n]), keys[n], EncodeKeys(keys));
    }
  }

  /** Keys read from the front of key pushes are the first ones: reading is unambiguous. */
  lemma {:induction false} SeenIsPrefix(all: seq<seq<Byte>>, seen: seq<seq<Byte>>, n: nat)
    requires AreKeys(all) && AreKeys(seen) && EncodeKeys(seen) <= EncodeKeys(all)
    requires n <= |all| && n <= |seen| && all[..n] == seen[..n]
    ensures seen <= all
    decreases |all| - n
  {
    if n < |all| { KeysPrefix(all, n); }
    if n < |seen| { KeysPrefix(seen, n); }
    assert n == |all| ==> all == seen[..n];
    assert n == |seen| ==> seen == all[..n];
    if n < |all| && n < |seen| {
      var at := |EncodeKeys(all[..n])|;
      assert EncodeKeys(all)[at] == EncodeKeys(seen)[at];
      var k := |all[n]|;
      assert |seen[n]| == k;
      assert EncodeKeys(all)[at + 1..at + 1 + k] == EncodeKeys(seen)[at + 1..at + 1 + k];
      assert all[n] == seen[n];
      assert all[..n + 1] == all[..n] + [all[n]] && seen[..n + 1] == seen[..n] + [seen[n]];
      SeenIsPrefix(all, seen, n + 1);
    }
  }

  /** A bare multisig's parts, read off its bytes. */
  lemma {:induction false} BareParts(bytes: seq<Byte>, m: nat, keys: seq<seq<Byte>>)
    requires AreKeys(keys) && 1 <= m <= |keys| <= 16 && bytes == BareMultisig(m, keys)
    ensures |bytes| >= 37 && bytes[0] == OP_1 + m - 1 && bytes[|bytes| - 1] == OP_CHECKMULTISIG
    ensures bytes[|bytes| - 2] == OP_1 + |keys| - 1 && bytes[1..|bytes| - 2] == EncodeKeys(keys)
  {
    KeysLength(keys);
  }

  /** Where the keys read so far do not continue with a key push that fits, the bytes
   * are no bare multisig. */
  lemma {:induction false} NoFurtherKey(bytes: seq<Byte>, seen: seq<seq<Byte>>, pos: nat)
    requires |bytes| >= 37 && 1 <= pos < |bytes| - 2
    requires AreKeys(seen) && EncodeKeys(seen) == bytes[1..pos]
    requires (bytes[pos] != 33 && bytes[pos] != 65) || pos + 1 + bytes[pos] > |bytes| - 2
    ensures !IsBareMultisig(bytes)
  {
    forall m: nat, keys | AreKeys(keys) && 1 <= m <= |keys| <= 16 ensures bytes != BareMultisig(m, keys) {
      if bytes == BareMultisig(m, keys) {
        BareParts(bytes, m, keys);
        assert bytes[1..|bytes| - 2][..pos - 1] == bytes[1..pos];
        SeenIsPrefix(keys, seen, 0);
        assert keys[..|seen|] == seen && (|seen| == |keys| ==> keys == seen);
        KeysPrefix(keys, |seen|);
        assert false;
      }
    }
  }

  /** With every key read, the bytes are a bare multisig exactly when OP_n counts them. */
  lemma {:induction false} AllKeysRead(bytes: seq<Byte>, seen: seq<seq<Byte>>)
    requires |bytes| >= 37 && bytes[|bytes| - 1] == OP_CHECKMULTISIG
    requires OP_1 <= bytes[0] <= bytes[|bytes| - 2] <= OP_16
    requires AreKeys(seen) && EncodeKeys(seen) == bytes[1..|bytes| - 2]
    ensures IsBareMultisig(bytes) <==> |seen| == bytes[|bytes| - 2] - OP_1 + 1
  {
    if |seen| == bytes[|bytes| - 2] - OP_1 + 1 {
      var m := bytes[0] - OP_1 + 1;
      assert bytes == BareMultisig(m, seen);
    }
    forall m: nat, keys | AreKeys(keys) && 1 <= m <= |keys| <= 16 && bytes == BareMultisig(m, keys)
      ensures |seen| == bytes[|bytes| - 2] - OP_1 + 1
    {
      BareParts(bytes, m, keys);
      SeenIsPrefix(keys, seen, 0);
      SeenIsPrefix(seen, keys, 0);
    }
  }

  lemma {:induction false} NotBareEnds(bytes: seq<Byte>)
    requires |bytes| < 37 || bytes[|bytes| - 1] != OP_CHECKMULTISIG
             || !(OP_1 <= bytes[0] <= bytes[|bytes| - 2] <= OP_16)
    ensures !IsBareMultisig(bytes)
  {
    forall m: nat, keys | AreKeys(keys) && 1 <= m <= |keys| <= 16 ensures bytes != BareMultisig(m, keys) {
      if bytes == BareMultisig(m, keys) {
        BareParts(bytes, m, keys);
        assert false;
      }
    }
  }

  /** `check_bare`: true exactly for OP_m, n pushes of 33 or 65 bytes, OP_n,
   * OP_CHECKMULTISIG with 1 <= m <= n <= 16. */
  method CheckBare(bytes: seq<Byte>) returns (ok: bool)
    ensures ok <==> IsBareMultisig(bytes)
  {
    if |bytes| < 37 || bytes[|bytes| - 1] != OP_CHECKMULTISIG {
      NotBareEnds(bytes);
      return false;
    }
    var requiredSigsOp, pubkeyCountOp := bytes[0], bytes[|bytes| - 2];
    if !(OP_1 <= requiredSigsOp <= OP_16) || !(OP_1 <= pubkeyCountOp <= OP_16) {
      NotBareEnds(bytes);
      return false;
    }
    var requiredSigs: int, pubkeyCount: int := requiredSigsOp - OP_1 + 1, pubkeyCountOp - OP_1 + 1;
    if requiredSigs > pubkeyCount {
      NotBareEnds(bytes);
      return false;
    }
    var pubkeysEnd := |bytes| - 2;
    var pos, pubkeysSeen := 1, 0;
    ghost var seen: seq<seq<Byte>> := [];
    while pos < pubkeysEnd
      invariant 1 <= pos <= pubkeysEnd && pubkeysSeen == |seen|
      invariant AreKeys(seen) && EncodeKeys(seen) == bytes[1..pos]
    {
      var pushLen: int := bytes[pos];
      if pushLen != 33 && pushLen != 65 {
        NoFurtherKey(bytes, seen, pos);
        return false;
      }
      var next := pos + 1 + pushLen;
      if next > pubkeysEnd {
        NoFurtherKey(bytes, seen, pos);
        return false;
      }
      ghost var longer := seen + [bytes[pos + 1..next]];
      assert longer[..|longer| - 1] == seen && IsKey(bytes[pos + 1..next]);
      assert bytes[1..next] == bytes[1..pos] + [bytes[pos]] + bytes[pos + 1..next];
      seen := longer;
      pos := next;
      pubkeysSeen := pubkeysSeen + 1;
    }
    AllKeysRead(bytes, seen);
    ok := pubkeysSeen == pubkeyCount;
  }

  /** `is_multisig`: a bare multisig script, or one whose last push is such a script. */
  method IsMultisig(bytes: seq<Byte>) returns (ok: bool)
    ensures ok <==>
              || IsBareMultisig(bytes)
              || (Parse(bytes).Some? && LastPush(Parse(bytes).value).Some?
                  && IsBareMultisig(LastPush(Parse(bytes).value).value))
  {
    ok := CheckBare(bytes);
    if !ok {
      var last := LastDataPush(bytes);
      if last.Some? {
        ok := CheckBare(last.value);
      }
    }
  }
}
