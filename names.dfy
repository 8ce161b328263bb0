/**
 * Domain names: their textual form (a Go string of labels separated by
 * '.'), their uncompressed wire form (section 3.1 of RFC 1035: each label
 * as a length byte followed by its bytes, ended by a zero byte) and the
 * compression pointers of section 4.1.4 of RFC 1035 met when reading a
 * name out of a whole message.
 *
 * The text `name` of the encoder may be relative ("www.example.com") or
 * absolute ("www.example.com."); both encode the same. The specification
 * of the encoder is positional: byte `q` of the wire form is the length of
 * the label that starts at `q` in the absolute text, or else the text byte
 * just before `q`.
 */
module DomainNames {
  import opened Octets

  /** Section 4.1.4 of RFC 1035: a length byte with both top bits set starts a pointer. */
  const NAME_POINTER_FLAG: byte := 0xC0

  // ---------------------------------------------------------------------
  // Textual names
  // ---------------------------------------------------------------------

  /** A label of `s` starts at `q`: at the very beginning or right after a '.'. */
  predicate LabelStart(s: seq<byte>, q: nat)
  {
    q == 0 || (q <= |s| && s[q - 1] == DOT)
  }

  /** The length of the run of non-'.' bytes that starts at `p`. */
  function RunLen(s: seq<byte>, p: nat): (n: nat)
    ensures n == 0 || p + n <= |s|
    decreases |s| - p
  {
    if p >= |s| || s[p] == DOT then 0 else 1 + RunLen(s, p + 1)
  }

  /** Empty, or ending in '.': the text of an absolute name, root label excluded. */
  predicate AbsText(u: seq<byte>)
  {
    |u| == 0 || u[|u| - 1] == DOT
  }

  /** The absolute text of a name: a missing trailing '.' is added. */
  function Absolute(name: seq<byte>): (a: seq<byte>)
    requires |name| > 0
    ensures |a| > 0 && AbsText(a)
    ensures |name| <= |a| <= |name| + 1 && a[..|name|] == name
  {
    if name[|name| - 1] == DOT then name else name + [DOT]
  }

  /** The relative text of a name: a trailing '.' is dropped, except that the root stays ".". */
  function Relative(name: seq<byte>): seq<byte>
    requires |name| > 0
  {
    if name == [DOT] then [DOT]
    else if name[|name| - 1] == DOT then name[..|name| - 1]
    else name
  }

  /** Every label of the absolute text `u` holds 1 to 63 bytes (section 2.3.4 of RFC 1035). */
  predicate ValidLabels(u: seq<byte>)
  {
    forall q :: 0 <= q < |u| && LabelStart(u, q) ==> 1 <= RunLen(u, q) <= 63
  }

  /** A name the codec can carry: the root ".", or labels of 1 to 63 bytes. */
  predicate ValidName(name: seq<byte>)
  {
    |name| > 0 && (name == [DOT] || ValidLabels(Absolute(name)))
  }

  // ---------------------------------------------------------------------
  // Wire form
  // ---------------------------------------------------------------------

  /**
   * The labels of the absolute text `u` in wire form: where a label starts
   * its length, elsewhere the text byte one position earlier (the '.' that
   * ended a label becomes the next label's length byte).
   */
  function LabelBytes(u: seq<byte>): (w: seq<byte>)
    ensures |w| == |u|
  {
    seq(|u|, q requires 0 <= q < |u| => if LabelStart(u, q) then Byte(RunLen(u, q)) else u[q - 1])
  }

  /** GetDomainNameWireLen: the length of the wire form, counted from the absolute text. */
  function GetDomainNameWireLen(name: seq<byte>): (n: nat)
    requires |name| > 0
    ensures n == (if name == [DOT] then 1 else |Absolute(name)| + 1)
  {
    if name[|name| - 1] == DOT then
      if |name| == 1 then 1 else |name| + 1
    else
      |name| + 2
  }

  /** The uncompressed wire form of a name, ended by the zero-length root label. */
  function NameWire(name: seq<byte>): (w: seq<byte>)
    requires |name| > 0
    ensures |w| == GetDomainNameWireLen(name) && w[|w| - 1] == 0
  {
    if name == [DOT] then [0] else LabelBytes(Absolute(name)) + [0]
  }

  // ---------------------------------------------------------------------
  // Facts about label runs
  // ---------------------------------------------------------------------

  lemma {:induction false} RunLenFacts(s: seq<byte>, p: nat)
    requires p <= |s|
    ensures p + RunLen(s, p) <= |s|
    ensures forall k :: p <= k < p + RunLen(s, p) ==> s[k] != DOT
    ensures p + RunLen(s, p) < |s| ==> s[p + RunLen(s, p)] == DOT
    decreases |s| - p
  {
    if p < |s| && s[p] != DOT {
      RunLenFacts(s, p + 1);
    }
  }

  lemma {:induction false} RunLenAt(s: seq<byte>, p: nat, n: nat)
    requires p + n <= |s|
    requires forall k :: p <= k < p + n ==> s[k] != DOT
    requires p + n == |s| || s[p + n] == DOT
    ensures RunLen(s, p) == n
    decreases n
  {
    if n > 0 {
      RunLenAt(s, p + 1, n - 1);
    }
  }

  /** A label of `n` bytes at `start`: its wire form is its length, then its bytes. */
  lemma LabelRunWire(u: seq<byte>, start: nat, n: nat)
    requires LabelStart(u, start) && start + n < |u| && u[start + n] == DOT
    requires forall k :: start <= k < start + n ==> u[k] != DOT
    ensures RunLen(u, start) == n
    ensures LabelBytes(u)[start] == Byte(n)
    ensures forall j :: start < j <= start + n ==> LabelBytes(u)[j] == u[j - 1]
    ensures LabelBytes(u)[start + 1..start + 1 + n] == u[start..start + n]
  {
    RunLenAt(u, start, n);
    var w := LabelBytes(u);
    forall j | start < j <= start + n
      ensures w[j] == u[j - 1]
    {
      assert !LabelStart(u, j);
    }
    var x := w[start + 1..start + 1 + n];
    var y := u[start..start + n];
    forall i | 0 <= i < n
      ensures x[i] == y[i]
    {
      assert x[i] == w[start + 1 + i];
    }
  }

  /**
   * One label of a wire form held at `data[base..]`: at label start `q`
   * of the absolute text `u` the length byte is followed by the label's
   * bytes, and the next label starts right after them.
   */
  lemma LabelStep(u: seq<byte>, data: seq<byte>, base: nat, q: nat)
    requires AbsText(u) && ValidLabels(u)
    requires base + |u| <= |data| && data[base..base + |u|] == LabelBytes(u)
    requires q < |u| && LabelStart(u, q)
    ensures 1 <= RunLen(u, q) <= 63
    ensures q + RunLen(u, q) < |u| && LabelStart(u, q + RunLen(u, q) + 1)
    ensures data[base + q] == RunLen(u, q) && u[q + RunLen(u, q)] == DOT
    ensures data[base + q + 1..base + q + 1 + RunLen(u, q)] == u[q..q + RunLen(u, q)]
  {
    var n := RunLen(u, q);
    RunLenFacts(u, q);
    if q + n == |u| {
      assert false;
    }
    LabelRunWire(u, q, n);
    assert data[base + q] == data[base..base + |u|][q];
    SliceOfSlice(data, base, base + |u|, q + 1, q + 1 + n);
  }

  /**
   * From the label start `q` of the absolute text `u` on, `data` holds the
   * labels as the wire form lays them out from `base`: each label's length,
   * then its bytes. The same facts as `LabelBytes`, one label at a time.
   */
  predicate LaidOut(data: seq<byte>, base: nat, u: seq<byte>, q: nat)
    decreases |u| - q
  {
    q <= |u| && base + |u| <= |data| &&
    (q == |u| ||
      (var n := RunLen(u, q);
       1 <= n <= 63 && q + n < |u| && u[q + n] == DOT
       && data[base + q] == n
       && data[base + q + 1..base + q + 1 + n] == u[q..q + n]
       && LaidOut(data, base, u, q + n + 1)))
  }

  lemma {:induction false} WireLaidOut(data: seq<byte>, base: nat, u: seq<byte>, q: nat)
    requires AbsText(u) && ValidLabels(u)
    requires base + |u| <= |data| && data[base..base + |u|] == LabelBytes(u)
    requires q <= |u| && LabelStart(u, q)
    ensures LaidOut(data, base, u, q)
    decreases |u| - q
  {
    if q < |u| {
      LabelStep(u, data, base, q);
      WireLaidOut(data, base, u, q + RunLen(u, q) + 1);
    }
  }

  // ---------------------------------------------------------------------
  // Encoding
  // ---------------------------------------------------------------------

  /**
   * The label loop shared by both encoders (dns/standard.go:63-76 and
   * 98-111): every byte of the wire form except the final zero is written,
   * and nothing else in `buffer` changes.
   */
  method PutLabels(name: seq<byte>, buffer: array<byte>)
    requires |name| > 0 && name != [DOT]
    requires GetDomainNameWireLen(name) <= buffer.Length
    modifies buffer
    ensures buffer[..|Absolute(name)|] == LabelBytes(Absolute(name))
    ensures forall q :: |Absolute(name)| <= q < buffer.Length ==> buffer[q] == old(buffer[q])
  {
    ghost var abs := Absolute(name);
    ghost var wire := LabelBytes(abs);
    var encodedLen := GetDomainNameWireLen(name);
    var labelLength := 0;
    for index := 0 to |name|
      invariant labelLength <= index
      invariant LabelStart(abs, index - labelLength)
      invariant forall k :: index - labelLength <= k < index ==> abs[k] != DOT
      invariant buffer[..index - labelLength] == wire[..index - labelLength]
      invariant forall q :: index - labelLength <= q < buffer.Length ==> buffer[q] == old(buffer[q])
    {
      if name[index] == DOT {
        var start := index - labelLength;
        PutLabel(buffer, start, name[start..index]);
        LabelExtendsPrefix(name, buffer[..], start, labelLength);
        labelLength := 0;
      } else {
        labelLength := labelLength + 1;
      }
    }
    if labelLength != 0 {
      var start := encodedLen - labelLength - 2;
      PutLabel(buffer, start, name[start..]);
      LabelExtendsPrefix(name, buffer[..], start, labelLength);
    }
  }

  /** For any name but the root, the wire form is the labels' bytes and a zero. */
  lemma NameWireOfText(name: seq<byte>)
    requires |name| > 0 && name != [DOT]
    ensures GetDomainNameWireLen(name) == |Absolute(name)| + 1
    ensures NameWire(name) == LabelBytes(Absolute(name)) + [0]
    ensures NameWire(name)[..|Absolute(name)|] == LabelBytes(Absolute(name))
  {
    TakeAppend(LabelBytes(Absolute(name)), [0]);
  }

  /** One label in wire form at `start`: its length byte, then its bytes. */
  method PutLabel(buffer: array<byte>, start: nat, bytes: seq<byte>)
    requires start + 1 + |bytes| <= buffer.Length
    modifies buffer
    ensures buffer[start] == Byte(|bytes|) && buffer[start + 1..start + 1 + |bytes|] == bytes
    ensures forall q :: 0 <= q < buffer.Length && (q < start || start + 1 + |bytes| <= q) ==> buffer[q] == old(buffer[q])
  {
    buffer[start] := Byte(|bytes|);
    CopyInto(buffer, start + 1, bytes);
    assert buffer[start] == buffer[..start + 1][start];
  }

  /** The wire form written so far grows by one label. */
  lemma LabelExtendsPrefix(name: seq<byte>, b: seq<byte>, start: nat, n: nat)
    requires |name| > 0 && start + n <= |name| && start + 1 + n <= |b|
    requires LabelStart(Absolute(name), start) && start + n < |Absolute(name)| && Absolute(name)[start + n] == DOT
    requires forall k :: start <= k < start + n ==> Absolute(name)[k] != DOT
    requires b[..start] == LabelBytes(Absolute(name))[..start]
    requires b[start] == Byte(n) && b[start + 1..start + 1 + n] == name[start..start + n]
    ensures b[..start + 1 + n] == LabelBytes(Absolute(name))[..start + 1 + n]
  {
    var abs := Absolute(name);
    LabelRunWire(abs, start, n);
    SliceOfSlice(abs, 0, |name|, start, start + n);
    PrefixExtends(b, LabelBytes(abs), start, n);
  }

  /** A prefix that agrees with `w` grows by one length byte and the label after it. */
  lemma PrefixExtends(b: seq<byte>, w: seq<byte>, start: nat, n: nat)
    requires start + 1 + n <= |b| && start + 1 + n <= |w|
    requires b[..start] == w[..start] && b[start] == w[start]
    requires b[start + 1..start + 1 + n] == w[start + 1..start + 1 + n]
    ensures b[..start + 1 + n] == w[..start + 1 + n]
  {
    forall i | 0 <= i < start + 1 + n
      ensures b[i] == w[i]
    {
      if i < start {
        assert b[..start][i] == w[..start][i];
      } else if i > start {
        assert b[start + 1..start + 1 + n][i - start - 1] == w[start + 1..start + 1 + n][i - start - 1];
      }
    }
  }

  /** EncodeDomainName: the wire form of a relative or absolute name. */
  method EncodeDomainName(name: seq<byte>) returns (wire: seq<byte>)
    requires |name| > 0
    ensures wire == NameWire(name)
  {
    var encodedLen := GetDomainNameWireLen(name);
    var byteArray := new byte[encodedLen](_ => 0);
    if encodedLen == 1 {
      byteArray[0] := 0;
      return byteArray[..];
    }
    PutLabels(name, byteArray);
    NameWireOfText(name);
    wire := byteArray[..];
    assert wire == wire[..encodedLen - 1] + [wire[encodedLen - 1]];
  }

  /**
   * EncodeDomainNameToBuffer: the wire form written at the start of
   * `buffer`, returning its length, or -1 with `buffer` untouched when it
   * is too small. Only the root's zero byte is written: for any other name
   * the final zero is left to the buffer's previous contents.
   */
  method EncodeDomainNameToBuffer(name: seq<byte>, buffer: array<byte>) returns (n: int)
    requires |name| > 0
    modifies buffer
    ensures buffer.Length < GetDomainNameWireLen(name) ==> n == -1 && buffer[..] == old(buffer[..])
    ensures buffer.Length >= GetDomainNameWireLen(name) ==>
      && n == GetDomainNameWireLen(name)
      && buffer[..n - 1] == NameWire(name)[..n - 1]
      && (name == [DOT] ==> buffer[0] == 0 && buffer[1..] == old(buffer[1..]))
      && (name != [DOT] ==> buffer[n - 1..] == old(buffer[n - 1..]))
  {
    var encodedLen := GetDomainNameWireLen(name);
    if buffer.Length < encodedLen {
      return -1;
    }
    if encodedLen == 1 {
      buffer[0] := 0;
      return 1;
    }
    PutLabels(name, buffer);
    NameWireOfText(name);
    n := encodedLen;
    ghost var rest := buffer[n - 1..];
    forall i | 0 <= i < |rest|
      ensures rest[i] == old(buffer[n - 1..])[i]
    {
    }
  }

  /** Into a zeroed buffer, EncodeDomainNameToBuffer leaves exactly the wire form. */
  lemma ZeroedBufferHoldsWire(name: seq<byte>, before: seq<byte>, after: seq<byte>, n: nat)
    requires |name| > 0 && n == GetDomainNameWireLen(name) <= |before| == |after|
    requires forall i :: 0 <= i < |before| ==> before[i] == 0
    requires after[..n - 1] == NameWire(name)[..n - 1]
    requires after[n - 1..] == before[n - 1..] || (n == 1 && after[0] == 0)
    ensures after[..n] == NameWire(name)
  {
    assert after[n - 1] == 0 by {
      if after[n - 1..] == before[n - 1..] {
        assert after[n - 1] == after[n - 1..][0];
      }
    }
    assert after[..n] == after[..n - 1] + [after[n - 1]];
    assert NameWire(name) == NameWire(name)[..n - 1] + [0];
  }

  // ---------------------------------------------------------------------
  // Reference form: a list of labels
  // ---------------------------------------------------------------------

  /** A label the wire format can carry: 1 to 63 bytes, none of them '.'. */
  predicate PlainLabel(l: seq<byte>)
  {
    1 <= |l| <= 63 && forall k :: 0 <= k < |l| ==> l[k] != DOT
  }

  /** The absolute text of a list of labels. */
  function JoinLabels(labels: seq<seq<byte>>): (u: seq<byte>)
    ensures AbsText(u)
  {
    if |labels| == 0 then [] else labels[0] + [DOT] + JoinLabels(labels[1..])
  }

  /** Section 3.1 of RFC 1035, read directly: length byte and bytes per label, then a zero. */
  function LabelsWire(labels: seq<seq<byte>>): seq<byte>
    requires forall i :: 0 <= i < |labels| ==> PlainLabel(labels[i])
  {
    if |labels| == 0 then [0]
    else
      assert PlainLabel(labels[0]);
      [|labels[0]| as byte] + labels[0] + LabelsWire(labels[1..])
  }

  lemma {:induction false} RunLenPrefix(a: seq<byte>, b: seq<byte>, p: nat)
    requires AbsText(a) && p <= |a|
    ensures p < |a| ==> RunLen(a + b, p) == RunLen(a, p)
    decreases |a| - p
  {
    if p < |a| && a[p] != DOT {
      assert p + 1 < |a|;
      RunLenPrefix(a, b, p + 1);
    }
  }

  lemma {:induction false} RunLenSuffix(a: seq<byte>, b: seq<byte>, p: nat)
    requires p <= |b|
    ensures RunLen(a + b, |a| + p) == RunLen(b, p)
    decreases |b| - p
  {
    if p < |b| && b[p] != DOT {
      RunLenSuffix(a, b, p + 1);
    }
  }

  /** Wire forms of absolute texts concatenate. */
  lemma LabelBytesAppend(a: seq<byte>, b: seq<byte>)
    requires AbsText(a)
    ensures LabelBytes(a + b) == LabelBytes(a) + LabelBytes(b)
  {
    forall q | 0 <= q < |a| + |b|
      ensures LabelBytes(a + b)[q] == (LabelBytes(a) + LabelBytes(b))[q]
    {
      if q < |a| {
        RunLenPrefix(a, b, q);
      } else {
        RunLenSuffix(a, b, q - |a|);
        assert LabelStart(a + b, q) <==> LabelStart(b, q - |a|);
      }
    }
  }

  /** One label followed by '.': its wire form is its length, then its bytes. */
  lemma SingleLabel(l: seq<byte>)
    requires PlainLabel(l)
    ensures LabelBytes(l + [DOT]) == [|l| as byte] + l
  {
    var head := l + [DOT];
    var w := LabelBytes(head);
    assert forall k :: 0 <= k < |l| ==> head[k] != DOT;
    LabelRunWire(head, 0, |l|);
    assert w[1..] == l by {
      forall i | 0 <= i < |l|
        ensures w[1..][i] == l[i]
      {
        assert w[1..][i] == w[i + 1] == head[i];
      }
    }
    assert w == [w[0]] + w[1..];
  }

  lemma {:induction false} LabelsWireAgrees(labels: seq<seq<byte>>)
    requires forall i :: 0 <= i < |labels| ==> PlainLabel(labels[i])
    ensures ValidLabels(JoinLabels(labels))
    ensures LabelBytes(JoinLabels(labels)) + [0] == LabelsWire(labels)
  {
    if |labels| > 0 {
      var l := labels[0];
      var head := l + [DOT];
      var rest := JoinLabels(labels[1..]);
      assert PlainLabel(l);
      LabelsWireAgrees(labels[1..]);
      SingleLabel(l);
      LabelBytesAppend(head, rest);
      assert JoinLabels(labels) == head + rest;
      forall q | 0 <= q < |head| + |rest| && LabelStart(head + rest, q)
        ensures 1 <= RunLen(head + rest, q) <= 63
      {
        if q < |head| {
          if q != 0 {
            assert false;
          }
          assert forall k :: 0 <= k < |l| ==> head[k] != DOT;
          RunLenAt(head, 0, |l|);
          RunLenPrefix(head, rest, 0);
        } else {
          RunLenSuffix(head, rest, q - |head|);
          assert LabelStart(rest, q - |head|);
        }
      }
    }
  }

  /**
   * A name written as labels, relative or absolute, encodes to the label
   * list form of section 3.1 of RFC 1035, and is a valid name.
   */
  lemma NameWireOfLabels(labels: seq<seq<byte>>, name: seq<byte>)
    requires |labels| > 0 && forall i :: 0 <= i < |labels| ==> PlainLabel(labels[i])
    requires name == JoinLabels(labels) || name + [DOT] == JoinLabels(labels)
    ensures ValidName(name) && NameWire(name) == LabelsWire(labels)
  {
    var u := JoinLabels(labels);
    LabelsWireAgrees(labels);
    JoinLabelsShape(labels);
    NameWireOfJoin(u, name);
  }

  /** The name whose absolute text is `u` encodes to the label bytes of `u` and a zero. */
  lemma NameWireOfJoin(u: seq<byte>, name: seq<byte>)
    requires |u| >= 2 && u[0] != DOT && u[|u| - 2] != DOT && u[|u| - 1] == DOT && ValidLabels(u)
    requires name == u || name + [DOT] == u
    ensures ValidName(name) && NameWire(name) == LabelBytes(u) + [0]
  {
    AbsoluteOfJoin(u, name);
    var w := NameWire(name);
    assert w == LabelBytes(u) + [0];
  }

  /** The text of one or more labels starts with a label byte and ends with a label byte and '.'. */
  lemma {:induction false} JoinLabelsShape(labels: seq<seq<byte>>)
    requires |labels| > 0 && forall i :: 0 <= i < |labels| ==> PlainLabel(labels[i])
    ensures var u := JoinLabels(labels); |u| >= 2 && u[0] != DOT && u[|u| - 2] != DOT
  {
    var l := labels[0];
    assert PlainLabel(l);
    var rest := JoinLabels(labels[1..]);
    var u := JoinLabels(labels);
    assert u == l + [DOT] + rest;
    assert u[0] == l[0];
    if |labels| == 1 {
      assert rest == [];
      assert u[|u| - 2] == l[|l| - 1];
    } else {
      JoinLabelsShape(labels[1..]);
      assert u[|u| - 2] == rest[|rest| - 2];
    }
  }

  /** A text of labels, or the same text without its final '.', has that text as its absolute form. */
  lemma AbsoluteOfJoin(u: seq<byte>, name: seq<byte>)
    requires |u| >= 2 && u[0] != DOT && u[|u| - 2] != DOT && u[|u| - 1] == DOT
    requires name == u || name + [DOT] == u
    ensures |name| > 0 && name != [DOT] && Absolute(name) == u
  {
    if name != u {
      assert name == u[..|u| - 1];
      assert name[|name| - 1] == u[|u| - 2];
      assert name[0] == u[0];
    }
  }

  const WWW: seq<byte> := [119, 119, 119]
  const EXAMPLE: seq<byte> := [101, 120, 97, 109, 112, 108, 101]
  const COM: seq<byte> := [99, 111, 109]

  /** The labels of www.example.com joined into absolute text. */
  lemma ExampleText()
    ensures JoinLabels([WWW, EXAMPLE, COM]) == WWW + [DOT] + EXAMPLE + [DOT] + COM + [DOT]
  {
    var labels, tail, last := [WWW, EXAMPLE, COM], [EXAMPLE, COM], [COM];
    assert labels[1..] == tail && tail[1..] == last && last[1..] == [];
    assert JoinLabels(last) == COM + [DOT];
  }

  /** The labels of www.example.com in wire form. */
  lemma ExampleWire()
    ensures LabelsWire([WWW, EXAMPLE, COM])
      == [3, 119, 119, 119, 7, 101, 120, 97, 109, 112, 108, 101, 3, 99, 111, 109, 0]
  {
    var labels, tail, last := [WWW, EXAMPLE, COM], [EXAMPLE, COM], [COM];
    assert labels[1..] == tail && tail[1..] == last && last[1..] == [];
    assert LabelsWire(last) == [3, 99, 111, 109, 0];
    assert LabelsWire(tail) == [7, 101, 120, 97, 109, 112, 108, 101, 3, 99, 111, 109, 0];
  }

  /** www.example.com encodes to 3 www 7 example 3 com 0, in relative and absolute form alike. */
  lemma ExampleEncoding()
    ensures NameWire(Ascii("www.example.com")) == NameWire(Ascii("www.example.com."))
      == [3, 119, 119, 119, 7, 101, 120, 97, 109, 112, 108, 101, 3, 99, 111, 109, 0]
    ensures GetDomainNameWireLen(Ascii("www.example.com")) == 17
  {
    var labels := [WWW, EXAMPLE, COM];
    ExampleText();
    ExampleWire();
    var relative := Ascii("www.example.com");
    var absolute := Ascii("www.example.com.");
    assert relative == WWW + [DOT] + EXAMPLE + [DOT] + COM;
    assert absolute == relative + [DOT];
    NameWireOfLabels(labels, relative);
    NameWireOfLabels(labels, absolute);
  }

  // ---------------------------------------------------------------------
  // Where a wire form sits in a buffer
  // ---------------------------------------------------------------------

  /** `data` holds, from `base` on, the wire form of the absolute text `u`. */
  predicate WireAt(data: seq<byte>, base: nat, u: seq<byte>)
  {
    base + |u| < |data| && data[base..base + |u|] == LabelBytes(u) && data[base + |u|] == 0
  }

  lemma WireOfName(name: seq<byte>, pre: seq<byte>, post: seq<byte>)
    requires |name| > 0 && name != [DOT]
    ensures WireAt(pre + NameWire(name) + post, |pre|, Absolute(name))
    ensures |NameWire(name)| == |Absolute(name)| + 1
  {
    var u := Absolute(name);
    var w := NameWire(name);
    var data := pre + w + post;
    Middle(pre, w, post);
    TakeAppend(LabelBytes(u), [0]);
    SliceOfSlice(data, |pre|, |pre| + |w|, 0, |u|);
    assert data[|pre| + |u|] == data[|pre|..|pre| + |w|][|u|];
  }

  lemma WireAtLaidOut(data: seq<byte>, base: nat, u: seq<byte>)
    requires AbsText(u) && ValidLabels(u) && WireAt(data, base, u)
    ensures LaidOut(data, base, u, 0) && base + |u| < |data| && data[base + |u|] == 0
  {
    WireLaidOut(data, base, u, 0);
  }

  // ---------------------------------------------------------------------
  // Decoding a name that stands alone
  // ---------------------------------------------------------------------

  /** From `p` on, `data` holds length-prefixed labels ended by a zero byte. */
  predicate Terminated(data: seq<byte>, p: nat)
    decreases |data| - p
  {
    p < |data| && (data[p] == 0 || (p + 1 + data[p] as int <= |data| && Terminated(data, p + 1 + data[p] as int)))
  }

  /** The absolute text of the labels read from `p`. */
  function LabelsText(data: seq<byte>, p: nat): (u: seq<byte>)
    requires Terminated(data, p)
    ensures AbsText(u) && (|u| == 0 <==> data[p] == 0)
    decreases |data| - p
  {
    if data[p] == 0 then []
    else data[p + 1..p + 1 + data[p] as int] + [DOT] + LabelsText(data, p + 1 + data[p] as int)
  }

  /** The relative text of an absolute text; no labels at all is the root ".". */
  function RelativeOf(u: seq<byte>): seq<byte>
  {
    if |u| == 0 then [DOT] else u[..|u| - 1]
  }

  lemma RelativeOfAbsolute(name: seq<byte>)
    requires |name| > 0 && name != [DOT]
    ensures RelativeOf(Absolute(name)) == Relative(name)
  {
  }

  /** DecodeDomainName: the relative text of the labels at the start of `data`. */
  method DecodeDomainName(data: seq<byte>) returns (name: seq<byte>)
    requires Terminated(data, 0)
    ensures name == RelativeOf(LabelsText(data, 0))
  {
    var text: seq<byte> := [];
    var nameLength: nat := 0;
    TextStart(data);
    while data[nameLength] != 0
      invariant nameLength < |data| && ReadSoFar(data, nameLength, text)
      invariant nameLength != 0 ==> |text| > 0
      decreases |data| - nameLength
    {
      nameLength, text := ReadLabel(data, nameLength, text);
    }
    TextComplete(data, nameLength, text);
    if nameLength != 0 {
      name := text[..|text| - 1];
    } else {
      name := [DOT];
    }
  }

  /** One turn of DecodeDomainName's loop: the label at `p` is appended, with its '.'. */
  method ReadLabel(data: seq<byte>, p: nat, text: seq<byte>) returns (next: nat, text': seq<byte>)
    requires p < |data| && data[p] != 0 && ReadSoFar(data, p, text)
    ensures p < next < |data| && ReadSoFar(data, next, text') && |text'| > 0
  {
    var labelLength := data[p] as int;
    TextBounds(data, p, text);
    var piece := data[p + 1..p + 1 + labelLength] + [DOT];
    TextGrows(data, p, p + 1 + labelLength, text, piece);
    text' := text + piece;
    next := p + 1 + labelLength;
  }

  /** DecodeDomainName has read `text` and stands at `p`; the rest of the labels follow. */
  predicate ReadSoFar(data: seq<byte>, p: nat, text: seq<byte>)
  {
    Terminated(data, 0) && Terminated(data, p) && text + LabelsText(data, p) == LabelsText(data, 0)
  }

  lemma TextStart(data: seq<byte>)
    requires Terminated(data, 0)
    ensures 0 < |data| && ReadSoFar(data, 0, [])
  {
    assert [] + LabelsText(data, 0) == LabelsText(data, 0);
  }

  lemma TextBounds(data: seq<byte>, p: nat, text: seq<byte>)
    requires p < |data| && data[p] != 0 && ReadSoFar(data, p, text)
    ensures p + 1 + data[p] as int < |data|
  {
    assert Terminated(data, p + 1 + data[p] as int);
  }

  /** One label read by DecodeDomainName moves from the remaining text to the text read. */
  lemma TextGrows(data: seq<byte>, p: nat, next: nat, text: seq<byte>, piece: seq<byte>)
    requires ReadSoFar(data, p, text) && data[p] != 0
    requires next == p + 1 + data[p] as int && piece == data[p + 1..next] + [DOT]
    ensures next < |data| && ReadSoFar(data, next, text + piece)
  {
    assert Terminated(data, next);
    assert LabelsText(data, p) == piece + LabelsText(data, next);
  }

  /** At the zero byte the text read is the whole text. */
  lemma TextComplete(data: seq<byte>, p: nat, text: seq<byte>)
    requires ReadSoFar(data, p, text) && data[p] == 0
    ensures text == LabelsText(data, 0)
  {
    assert text + [] == text;
  }

  /** One label read back, with only the facts about that label in view. */
  lemma TextStep(data: seq<byte>, base: nat, u: seq<byte>, q: nat, n: nat)
    requires base + q + n + 1 <= |data| && q + n < |u|
    requires data[base + q] == n && 1 <= n <= 63 && u[q + n] == DOT
    requires data[base + q + 1..base + q + 1 + n] == u[q..q + n]
    requires Terminated(data, base + q + n + 1) && LabelsText(data, base + q + n + 1) == u[q + n + 1..]
    ensures Terminated(data, base + q) && LabelsText(data, base + q) == u[q..]
  {
    var p, next := base + q, base + q + n + 1;
    assert data[p] as int == n && p + 1 + data[p] as int == next;
    assert Terminated(data, p);
    var rest := LabelsText(data, next);
    assert LabelsText(data, p) == data[p + 1..next] + [DOT] + rest;
    DropGrow(u, q, q + n);
  }

  lemma {:induction false} LabelsTextAt(data: seq<byte>, base: nat, u: seq<byte>, q: nat)
    requires LaidOut(data, base, u, q) && base + |u| < |data| && data[base + |u|] == 0
    ensures Terminated(data, base + q) && LabelsText(data, base + q) == u[q..]
    decreases |u| - q
  {
    var p := base + q;
    if q < |u| {
      var n := RunLen(u, q);
      LabelsTextAt(data, base, u, q + n + 1);
      TextStep(data, base, u, q, n);
    } else {
      assert u[q..] == [];
    }
  }

  /** Decoding the wire form of a valid name gives back its relative text. */
  lemma DecodeEncodeRoundTrip(name: seq<byte>)
    requires ValidName(name)
    ensures Terminated(NameWire(name), 0)
    ensures RelativeOf(LabelsText(NameWire(name), 0)) == Relative(name)
  {
    var w := NameWire(name);
    if name == [DOT] {
      assert w == [0];
    } else {
      WireOfName(name, [], []);
      assert [] + w + [] == w;
      WireAtLaidOut(w, 0, Absolute(name));
      LabelsTextAt(w, 0, Absolute(name), 0);
      RelativeOfAbsolute(name);
    }
  }

  // ---------------------------------------------------------------------
  // Decoding a name inside a message, as written
  // ---------------------------------------------------------------------

  /** The 14-bit target of a compression pointer. */
  function Pointer(hi: byte, lo: byte): (target: nat)
    ensures target < 0x4000
  {
    (hi as int * 0x100 + lo) % 0x4000
  }

  /**
   * What DecodeDomainNameFromBuffer comes to: a name and the offset just
   * past it, the error for a buffer that is too small, a Go runtime panic
   * (an index out of range), or a chain of pointers longer than the depth
   * allowed to the model (the source follows pointers without bound).
   */
  datatype Decoded = Name(text: seq<byte>, next: nat) | BufferTooSmall | IndexPanic | Unbounded

  /** The decoder as written (dns/standard.go:143-186), following at most `fuel` pointers. */
  function AsWrittenAt(data: seq<byte>, offset: nat, fuel: nat): (r: Decoded)
    ensures |data| < offset + 1 ==> r == BufferTooSmall
    ensures r.Name? ==> offset < r.next <= |data|
    decreases fuel, 1
  {
    if |data| < offset + 1 then BufferTooSmall
    else AsWrittenLoop(data, offset, offset, [], fuel)
  }

  /** The label loop of the decoder, at position `p` with the text read so far. */
  function AsWrittenLoop(data: seq<byte>, offset: nat, p: nat, text: seq<byte>, fuel: nat): (r: Decoded)
    requires offset <= p && (p != offset ==> |text| > 0)
    ensures r.Name? ==> p < r.next <= |data|
    decreases fuel, 0, |data| - p
  {
    if p >= |data| then IndexPanic
    else if data[p] == 0 then
      if p != offset then Name(text[..|text| - 1], p + 1) else Name([DOT], offset + 1)
    else if data[p] >= NAME_POINTER_FLAG then
      if p + 1 >= |data| then IndexPanic
      else if fuel == 0 then Unbounded
      else
        match AsWrittenAt(data, Pointer(data[p], data[p + 1]), fuel - 1)
        case Name(suffix, _) =>
          var joined := text + suffix;
          if |joined| == 0 then IndexPanic else Name(joined[..|joined| - 1], p + 2)
        case failed => failed
    else
      var n := data[p] as int;
      if |data| < p + n + 1 then BufferTooSmall
      else AsWrittenLoop(data, offset, p + n + 1, text + data[p + 1..p + 1 + n] + [DOT], fuel)
  }

  /** DecodeDomainNameFromBuffer, as written. */
  method DecodeDomainNameFromBuffer(data: seq<byte>, offset: nat, fuel: nat) returns (r: Decoded)
    ensures r == AsWrittenAt(data, offset, fuel)
    decreases fuel
  {
    var dataLength := |data|;
    if dataLength < offset + 1 {
      return BufferTooSmall;
    }
    var text: seq<byte> := [];
    var nameLength := 0;
    while true
      invariant offset + nameLength <= dataLength
      invariant nameLength != 0 ==> |text| > 0
      invariant AsWrittenLoop(data, offset, offset + nameLength, text, fuel) == AsWrittenAt(data, offset, fuel)
      decreases dataLength - nameLength
    {
      if offset + nameLength >= dataLength {
        return IndexPanic;
      }
      var labelLength := data[offset + nameLength] as int;
      if labelLength == 0 {
        break;
      }
      if labelLength >= NAME_POINTER_FLAG {
        if offset + nameLength + 1 >= dataLength {
          return IndexPanic;
        }
        if fuel == 0 {
          return Unbounded;
        }
        var pointer := Pointer(data[offset + nameLength], data[offset + nameLength + 1]);
        var decoded := DecodeDomainNameFromBuffer(data, pointer, fuel - 1);
        if !decoded.Name? {
          return decoded;
        }
        text := text + decoded.text;
        nameLength := nameLength + 1;
        if |text| == 0 {
          return IndexPanic;
        }
        return Name(text[..|text| - 1], offset + nameLength + 1);
      }
      if dataLength < offset + nameLength + labelLength + 1 {
        return BufferTooSmall;
      }
      var piece := data[offset + nameLength + 1..offset + nameLength + 1 + labelLength];
      assert AsWrittenLoop(data, offset, offset + nameLength, text, fuel)
        == AsWrittenLoop(data, offset, offset + nameLength + labelLength + 1, text + piece + [DOT], fuel);
      text := text + piece + [DOT];
      nameLength := nameLength + labelLength + 1;
    }
    if nameLength != 0 {
      return Name(text[..|text| - 1], offset + nameLength + 1);
    }
    return Name([DOT], offset + 1);
  }

  /** One label read by the decoder as written, with only the facts about that label in view. */
  lemma AsWrittenStep(data: seq<byte>, offset: nat, u: seq<byte>, q: nat, n: nat, fuel: nat, r: Decoded)
    requires offset + q + n + 1 <= |data| && q + n < |u|
    requires data[offset + q] == n && 1 <= n <= 63 && u[q + n] == DOT
    requires data[offset + q + 1..offset + q + 1 + n] == u[q..q + n]
    requires AsWrittenLoop(data, offset, offset + q + n + 1, u[..q + n + 1], fuel) == r
    ensures AsWrittenLoop(data, offset, offset + q, u[..q], fuel) == r
  {
    TakeGrow(u, q, q + n);
  }

  lemma {:induction false} AsWrittenLabels(data: seq<byte>, base: nat, u: seq<byte>, q: nat, fuel: nat)
    requires LaidOut(data, base, u, q) && base + |u| < |data| && data[base + |u|] == 0 && |u| > 0
    ensures AsWrittenLoop(data, base, base + q, u[..q], fuel) == Name(RelativeOf(u), base + |u| + 1)
    decreases |u| - q
  {
    if q < |u| {
      var n := RunLen(u, q);
      AsWrittenLabels(data, base, u, q + n + 1, fuel);
      AsWrittenStep(data, base, u, q, n, fuel, Name(RelativeOf(u), base + |u| + 1));
    } else {
      assert u[..q] == u;
    }
  }

  lemma AsWrittenAtWire(data: seq<byte>, base: nat, u: seq<byte>, fuel: nat)
    requires AbsText(u) && ValidLabels(u) && WireAt(data, base, u) && |u| > 0
    ensures AsWrittenAt(data, base, fuel) == Name(RelativeOf(u), base + |u| + 1)
  {
    WireAtLaidOut(data, base, u);
    AsWrittenLabels(data, base, u, 0, fuel);
    assert u[..0] == [];
  }

  /** Without pointers the decoder as written reads back the relative text and the offset past the name. */
  lemma AsWrittenDecodesEncodedName(name: seq<byte>, pre: seq<byte>, post: seq<byte>, fuel: nat)
    requires ValidName(name)
    ensures AsWrittenAt(pre + NameWire(name) + post, |pre|, fuel)
      == Name(Relative(name), |pre| + |NameWire(name)|)
  {
    if name == [DOT] {
      assert (pre + [0] + post)[|pre|] == 0;
    } else {
      WireOfName(name, pre, post);
      AsWrittenAtWire(pre + NameWire(name) + post, |pre|, Absolute(name), fuel);
    }
  }

  /** What the decoder as written makes of labels `u` followed by the name at a pointer's target. */
  function AsWrittenJoin(u: seq<byte>, target: Decoded, next: nat): Decoded
  {
    match target
    case Name(suffix, _) =>
      if |u + suffix| == 0 then IndexPanic else Name((u + suffix)[..|u + suffix| - 1], next)
    case failed => failed
  }

  /** The labels `u` sit at `offset`, and a pointer follows them. */
  predicate CompressedAt(data: seq<byte>, offset: nat, u: seq<byte>)
  {
    && offset + |u| + 1 < |data|
    && data[offset..offset + |u|] == LabelBytes(u)
    && data[offset + |u|] >= NAME_POINTER_FLAG
  }

  /** The target of the pointer that follows the labels `u` at `offset`. */
  function TargetOf(data: seq<byte>, offset: nat, u: seq<byte>): nat
    requires CompressedAt(data, offset, u)
  {
    Pointer(data[offset + |u|], data[offset + |u| + 1])
  }

  lemma {:induction false} AsWrittenCompressedFrom(data: seq<byte>, offset: nat, u: seq<byte>, q: nat, target: nat, fuel: nat)
    requires LaidOut(data, offset, u, q) && offset + |u| + 1 < |data| && data[offset + |u|] >= NAME_POINTER_FLAG
    requires target == Pointer(data[offset + |u|], data[offset + |u| + 1]) && fuel > 0
    ensures AsWrittenLoop(data, offset, offset + q, u[..q], fuel)
      == AsWrittenJoin(u, AsWrittenAt(data, target, fuel - 1), offset + |u| + 2)
    decreases |u| - q
  {
    if q < |u| {
      var n := RunLen(u, q);
      AsWrittenCompressedFrom(data, offset, u, q + n + 1, target, fuel);
      AsWrittenStep(data, offset, u, q, n, fuel, AsWrittenJoin(u, AsWrittenAt(data, target, fuel - 1), offset + |u| + 2));
    } else {
      assert u[..q] == u;
    }
  }

  /**
   * A name given as labels `u` followed by a pointer: the decoder as
   * written joins the labels with the text found at the target and then
   * drops the joined text's last byte, which belongs to the target's last
   * label, not to a '.'. The next offset is two past the pointer's first
   * byte.
   */
  lemma AsWrittenCompressedName(data: seq<byte>, offset: nat, u: seq<byte>, fuel: nat)
    requires AbsText(u) && ValidLabels(u) && CompressedAt(data, offset, u) && fuel > 0
    ensures AsWrittenAt(data, offset, fuel)
      == AsWrittenJoin(u, AsWrittenAt(data, TargetOf(data, offset, u), fuel - 1), offset + |u| + 2)
  {
    WireLaidOut(data, offset, u, 0);
    AsWrittenCompressedFrom(data, offset, u, 0, TargetOf(data, offset, u), fuel);
  }

  // ---------------------------------------------------------------------
  // Decoding a name inside a message, corrected
  // ---------------------------------------------------------------------

  datatype NameError = Truncated | BadPointer

  /**
   * The corrected decoder: the absolute text of the name at `offset` and
   * the offset just past it. Running off the end of the buffer is an
   * error, and a pointer must point strictly before the name it belongs
   * to, which bounds every chain of pointers.
   */
  function AbsNameAt(data: seq<byte>, offset: nat): (r: Result<(seq<byte>, nat), NameError>)
    ensures r.Success? ==> AbsText(r.value.0) && offset < r.value.1 <= |data|
    decreases offset, 1
  {
    AbsLabels(data, offset, offset)
  }

  function AbsLabels(data: seq<byte>, start: nat, p: nat): (r: Result<(seq<byte>, nat), NameError>)
    requires start <= p
    ensures r.Success? ==> AbsText(r.value.0) && p < r.value.1 <= |data|
    decreases start, 0, |data| - p
  {
    if p >= |data| then Failure(Truncated)
    else if data[p] == 0 then Success(([], p + 1))
    else if data[p] >= NAME_POINTER_FLAG then
      if p + 1 >= |data| then Failure(Truncated)
      else
        var target := Pointer(data[p], data[p + 1]);
        if target >= start then Failure(BadPointer)
        else
          match AbsNameAt(data, target)
          case Success((suffix, _)) => Success((suffix, p + 2))
          case Failure(e) => Failure(e)
    else
      var n := data[p] as int;
      if |data| <= p + n + 1 then Failure(Truncated)
      else
        match AbsLabels(data, start, p + n + 1)
        case Success((rest, next)) => Success((data[p + 1..p + 1 + n] + [DOT] + rest, next))
        case Failure(e) => Failure(e)
  }

  /** The corrected DecodeDomainNameFromBuffer: the relative text and the next offset. */
  function DecodeNameFromBuffer(data: seq<byte>, offset: nat): (r: Result<(seq<byte>, nat), NameError>)
    ensures r.Success? ==> offset < r.value.1 <= |data|
  {
    match AbsNameAt(data, offset)
    case Success((text, next)) => Success((RelativeOf(text), next))
    case Failure(e) => Failure(e)
  }

  lemma {:induction false} CorrectedLabels(data: seq<byte>, base: nat, u: seq<byte>, q: nat)
    requires LaidOut(data, base, u, q) && base + |u| < |data| && data[base + |u|] == 0
    ensures AbsLabels(data, base, base + q) == Success((u[q..], base + |u| + 1))
    decreases |u| - q
  {
    if q < |u| {
      var n := RunLen(u, q);
      CorrectedLabels(data, base, u, q + n + 1);
      LabelsStep(data, base, u, q, n, base + |u| + 1);
    } else {
      assert u[q..] == [];
    }
  }

  /** One label read by the corrected decoder, with only the facts about that label in view. */
  lemma LabelsStep(data: seq<byte>, start: nat, u: seq<byte>, q: nat, n: nat, next: nat)
    requires start + q + n + 1 < |data| && q + n < |u|
    requires data[start + q] == n && 1 <= n <= 63 && u[q + n] == DOT
    requires data[start + q + 1..start + q + 1 + n] == u[q..q + n]
    requires AbsLabels(data, start, start + q + n + 1) == Success((u[q + n + 1..], next))
    ensures AbsLabels(data, start, start + q) == Success((u[q..], next))
  {
    DropGrow(u, q, q + n);
  }

  lemma CorrectedAtWire(data: seq<byte>, base: nat, u: seq<byte>)
    requires AbsText(u) && ValidLabels(u) && WireAt(data, base, u)
    ensures AbsNameAt(data, base) == Success((u, base + |u| + 1))
  {
    WireAtLaidOut(data, base, u);
    CorrectedLabels(data, base, u, 0);
  }

  /** The corrected decoder reads back the relative text of an encoded name, wherever it sits. */
  lemma CorrectedDecodesEncodedName(name: seq<byte>, pre: seq<byte>, post: seq<byte>)
    requires ValidName(name)
    ensures DecodeNameFromBuffer(pre + NameWire(name) + post, |pre|)
      == Success((Relative(name), |pre| + |NameWire(name)|))
  {
    var w := NameWire(name);
    if name == [DOT] {
      assert w == [0];
      CorrectedDecodesRoot(pre, post);
    } else {
      WireOfName(name, pre, post);
      CorrectedDecodesText(pre + w + post, |pre|, name);
    }
  }

  lemma CorrectedDecodesRoot(pre: seq<byte>, post: seq<byte>)
    ensures DecodeNameFromBuffer(pre + [0] + post, |pre|) == Success(([DOT], |pre| + 1))
  {
    var data := pre + [0] + post;
    assert data[|pre|] == 0;
    assert AbsNameAt(data, |pre|) == AbsLabels(data, |pre|, |pre|) == Success(([], |pre| + 1));
  }

  lemma CorrectedDecodesText(data: seq<byte>, base: nat, name: seq<byte>)
    requires ValidName(name) && name != [DOT] && WireAt(data, base, Absolute(name))
    ensures DecodeNameFromBuffer(data, base) == Success((Relative(name), base + |Absolute(name)| + 1))
  {
    CorrectedAtWire(data, base, Absolute(name));
    RelativeOfAbsolute(name);
  }

  /** What the corrected decoder makes of labels `u` followed by the name at a pointer's target. */
  function JoinTarget(u: seq<byte>, target: Result<(seq<byte>, nat), NameError>, next: nat): Result<(seq<byte>, nat), NameError>
  {
    match target
    case Success((suffix, _)) => Success((u + suffix, next))
    case Failure(e) => Failure(e)
  }

  lemma JoinTargetGrows(x: seq<byte>, y: seq<byte>, target: Result<(seq<byte>, nat), NameError>, next: nat)
    ensures JoinTarget(x + y, target, next)
      == match JoinTarget(y, target, next)
         case Success((t, k)) => Success((x + t, k))
         case Failure(e) => Failure(e)
  {
    match target
    case Success((suffix, _)) =>
      assert x + y + suffix == x + (y + suffix);
    case Failure(_) =>
  }

  lemma JoinTargetEmpty(target: Result<(seq<byte>, nat), NameError>, next: nat)
    ensures JoinTarget([], target, next)
      == match target
         case Success((t, _)) => Success((t, next))
         case Failure(e) => Failure(e)
  {
    match target
    case Success((suffix, _)) =>
      assert [] + suffix == suffix;
    case Failure(_) =>
  }

  lemma CompressedStep(data: seq<byte>, start: nat, u: seq<byte>, q: nat, n: nat,
                        target: Result<(seq<byte>, nat), NameError>, next: nat)
    requires start + q + n + 1 < |data| && q + n < |u|
    requires data[start + q] == n && 1 <= n <= 63 && u[q + n] == DOT
    requires data[start + q + 1..start + q + 1 + n] == u[q..q + n]
    requires AbsLabels(data, start, start + q + n + 1) == JoinTarget(u[q + n + 1..], target, next)
    ensures AbsLabels(data, start, start + q) == JoinTarget(u[q..], target, next)
  {
    DropGrow(u, q, q + n);
    JoinTargetGrows(u[q..q + n] + [DOT], u[q + n + 1..], target, next);
  }

  lemma CompressedEnd(data: seq<byte>, offset: nat, u: seq<byte>, target: nat)
    requires offset + |u| + 1 < |data| && data[offset + |u|] >= NAME_POINTER_FLAG
    requires target == Pointer(data[offset + |u|], data[offset + |u| + 1]) && target < offset
    ensures AbsLabels(data, offset, offset + |u|) == JoinTarget([], AbsNameAt(data, target), offset + |u| + 2)
  {
    JoinTargetEmpty(AbsNameAt(data, target), offset + |u| + 2);
  }

  lemma {:induction false} CompressedFrom(data: seq<byte>, offset: nat, u: seq<byte>, q: nat,
                                         target: Result<(seq<byte>, nat), NameError>, next: nat)
    requires LaidOut(data, offset, u, q) && offset + |u| + 1 < |data|
    requires AbsLabels(data, offset, offset + |u|) == JoinTarget([], target, next)
    ensures AbsLabels(data, offset, offset + q) == JoinTarget(u[q..], target, next)
    decreases |u| - q
  {
    if q < |u| {
      var n := RunLen(u, q);
      CompressedFrom(data, offset, u, q + n + 1, target, next);
      CompressedStep(data, offset, u, q, n, target, next);
    } else {
      assert u[q..] == [];
    }
  }

  /**
   * A name given as labels `u` followed by a pointer back into the
   * message: the corrected decoder yields the labels followed by the whole
   * name found at the target, and the next offset is two past the
   * pointer's first byte.
   */
  lemma CompressedNameJoins(data: seq<byte>, offset: nat, u: seq<byte>)
    requires AbsText(u) && ValidLabels(u) && CompressedAt(data, offset, u)
    requires TargetOf(data, offset, u) < offset
    ensures AbsNameAt(data, offset)
      == JoinTarget(u, AbsNameAt(data, TargetOf(data, offset, u)), offset + |u| + 2)
  {
    var target, next := TargetOf(data, offset, u), offset + |u| + 2;
    WireLaidOut(data, offset, u, 0);
    CompressedEnd(data, offset, u, target);
    CompressedFrom(data, offset, u, 0, AbsNameAt(data, target), next);
  }

  /** A pointer that does not point strictly before its own name is rejected. */
  lemma ForwardPointerRejected(data: seq<byte>, offset: nat)
    requires offset + 1 < |data| && data[offset] >= NAME_POINTER_FLAG
    requires Pointer(data[offset], data[offset + 1]) >= offset
    ensures DecodeNameFromBuffer(data, offset) == Failure(BadPointer)
  {
    assert AbsNameAt(data, offset) == AbsLabels(data, offset, offset) == Failure(BadPointer);
  }

  lemma {:induction false} CorrectedTruncated(w: seq<byte>, u: seq<byte>, k: nat, q: nat)
    requires LaidOut(w, 0, u, q) && k <= |u|
    ensures AbsLabels(w[..k], 0, q) == Failure(Truncated)
    decreases |u| - q
  {
    if q < k {
      var n := RunLen(u, q);
      assert w[..k][q] == w[q];
      if q + n + 1 < k {
        CorrectedTruncated(w, u, k, q + n + 1);
      }
    }
  }

  /** A valid name cut short anywhere is reported as truncated by the corrected decoder. */
  lemma CorrectedTruncatedNameIsError(name: seq<byte>, k: nat)
    requires ValidName(name) && k < |NameWire(name)|
    ensures DecodeNameFromBuffer(NameWire(name)[..k], 0) == Failure(Truncated)
  {
    if name != [DOT] {
      WireOfName(name, [], []);
      assert [] + NameWire(name) + [] == NameWire(name);
      WireAtLaidOut(NameWire(name), 0, Absolute(name));
      CorrectedTruncated(NameWire(name), Absolute(name), k, 0);
      assert AbsNameAt(NameWire(name)[..k], 0) == Failure(Truncated);
    }
  }

  // ---------------------------------------------------------------------
  // Where the decoder as written goes wrong
  // ---------------------------------------------------------------------

  /** "com" at offset 0, then a pointer to it at offset 5. */
  const POINTER_EXAMPLE: seq<byte> := [3, 99, 111, 109, 0, 0xC0, 0x00]

  lemma AsWrittenReadsCom()
    ensures AsWrittenAt(POINTER_EXAMPLE, 0, 0) == Name(COM, 5)
  {
    var data := POINTER_EXAMPLE;
    assert data[1..4] == COM;
    assert AsWrittenLoop(data, 0, 4, COM + [DOT], 0) == Name(COM, 5);
  }

  /** The decoder as written reads "co" at offset 5: the pointer's target loses its last byte. */
  lemma AsWrittenPointerDropsLastByte()
    ensures AsWrittenAt(POINTER_EXAMPLE, 5, 1) == Name([99, 111], 7)
  {
    AsWrittenReadsCom();
    assert Pointer(POINTER_EXAMPLE[5], POINTER_EXAMPLE[6]) == 0;
    assert AsWrittenLoop(POINTER_EXAMPLE, 5, 5, [], 1) == Name([99, 111], 7);
  }

  lemma CorrectedReadsCom()
    ensures AbsNameAt(POINTER_EXAMPLE, 0) == Success((COM + [DOT], 5))
  {
    var data := POINTER_EXAMPLE;
    assert data[1..4] == COM;
    assert AbsLabels(data, 0, 4) == Success(([], 5));
    assert COM + [DOT] + [] == COM + [DOT];
    assert AbsLabels(data, 0, 0) == Success((COM + [DOT], 5));
  }

  /** The corrected decoder reads "com" at offset 5. */
  lemma CorrectedPointerKeepsName()
    ensures DecodeNameFromBuffer(POINTER_EXAMPLE, 5) == Success((COM, 7))
  {
    CorrectedReadsCom();
    assert Pointer(POINTER_EXAMPLE[5], POINTER_EXAMPLE[6]) == 0;
    assert AbsLabels(POINTER_EXAMPLE, 5, 5) == Success((COM + [DOT], 7));
    assert (COM + [DOT])[..3] == COM;
  }

  /** A lone pointer byte at the end of the buffer: the decoder as written indexes past the end. */
  lemma AsWrittenTruncatedPointerPanics(fuel: nat)
    ensures AsWrittenAt([0xC0], 0, fuel) == IndexPanic
    ensures DecodeNameFromBuffer([0xC0], 0) == Failure(Truncated)
  {
    assert AbsNameAt([0xC0], 0) == AbsLabels([0xC0], 0, 0) == Failure(Truncated);
  }

  lemma {:induction false} MissingTerminatorFrom(data: seq<byte>, u: seq<byte>, q: nat, fuel: nat)
    requires LaidOut(data, 0, u, q) && |data| == |u| > 0
    ensures AsWrittenLoop(data, 0, q, u[..q], fuel) == IndexPanic
    decreases |u| - q
  {
    if q < |u| {
      var n := RunLen(u, q);
      MissingTerminatorFrom(data, u, q + n + 1, fuel);
      AsWrittenStep(data, 0, u, q, n, fuel, IndexPanic);
    }
  }

  /** Any valid name but the root with its final zero byte missing: the decoder as written indexes past the end. */
  lemma AsWrittenMissingTerminatorPanics(name: seq<byte>, fuel: nat)
    requires ValidName(name) && name != [DOT]
    ensures AsWrittenAt(NameWire(name)[..|NameWire(name)| - 1], 0, fuel) == IndexPanic
  {
    var u := Absolute(name);
    var data := LabelBytes(u);
    assert NameWire(name)[..|NameWire(name)| - 1] == data;
    assert data[0..|u|] == data;
    WireLaidOut(data, 0, u, 0);
    MissingTerminatorFrom(data, u, 0, fuel);
  }

  lemma {:induction false} SelfPointerLoops(fuel: nat)
    ensures AsWrittenAt([0xC0, 0x00], 0, fuel) == Unbounded
  {
    if fuel > 0 {
      SelfPointerLoops(fuel - 1);
    }
  }

  /** A pointer to itself: the decoder as written follows it forever; the corrected one rejects it. */
  lemma AsWrittenSelfPointerNeverEnds(fuel: nat)
    ensures AsWrittenAt([0xC0, 0x00], 0, fuel) == Unbounded
    ensures DecodeNameFromBuffer([0xC0, 0x00], 0) == Failure(BadPointer)
  {
    SelfPointerLoops(fuel);
    ForwardPointerRejected([0xC0, 0x00], 0);
  }
}
