/** Subjects of the event stream, `documents.<tenant>.<partition>.<document>`, and the
    parser that recovers a document's key from one. */
module Subject {
  import opened Wrappers
  import opened Domain

  datatype Key = Key(tenant: Id, doc: Id)

  const EVENT_PARTITIONS := 16

  function Digit(d: nat): char
    requires d < 10
  {
    "0123456789"[d]
  }

  /** `{partition:02}` for a partition below one hundred. */
  function TwoDigits(p: nat): string
    requires p < 100
  {
    [Digit(p / 10), Digit(p % 10)]
  }

  /** `crc` stands for the CRC-32 of the document id. */
  function EventSubject(k: Key, crc: nat): string {
    "documents." + k.tenant + "." + TwoDigits(crc % EVENT_PARTITIONS) + "." + k.doc
  }

  function Split(s: string): (tokens: seq<string>)
    ensures |tokens| >= 1
  {
    if s == [] then [[]]
    else
      var rest := Split(s[1..]);
      if s[0] == '.' then [[]] + rest else [[s[0]] + rest[0]] + rest[1..]
  }

  function DocumentKeyFromSubject(s: string): Option<Key> {
    var t := Split(s);
    if |t| == 4 && t[0] == "documents" then Some(Key(t[1], t[3])) else None
  }

  predicate DotFree(s: string) {
    '.' !in s
  }

  lemma {:induction false} SplitToken(head: string, tail: string)
    requires DotFree(head)
    ensures Split(head + "." + tail) == [head] + Split(tail)
  {
    var s := head + "." + tail;
    if head == [] {
      assert s[1..] == tail;
    } else {
      assert s[1..] == head[1..] + "." + tail;
      SplitToken(head[1..], tail);
      assert s[0] == head[0] && head[0] in head;
      assert [s[0]] + head[1..] == head;
    }
  }

  lemma {:induction false} SplitLast(s: string)
    requires DotFree(s)
    ensures Split(s) == [s]
  {
    if s != [] {
      SplitLast(s[1..]);
      assert s[0] in s && [s[0]] + s[1..] == s;
    }
  }

  lemma TwoDigitsDotFree(p: nat)
    requires p < 100
    ensures DotFree(TwoDigits(p))
  {
    assert forall d: nat :: d < 10 ==> Digit(d) != '.';
  }

  /** The parser inverts the subject builder on dot-free ids. */
  lemma KeyRoundTrip(k: Key, crc: nat)
    requires DotFree(k.tenant) && DotFree(k.doc)
    ensures DocumentKeyFromSubject(EventSubject(k, crc)) == Some(k)
  {
    var p := TwoDigits(crc % EVENT_PARTITIONS);
    TwoDigitsDotFree(crc % EVENT_PARTITIONS);
    SplitLast(k.doc);
    SplitToken(p, k.doc);
    SplitToken(k.tenant, p + "." + k.doc);
    SplitToken("documents", k.tenant + "." + (p + "." + k.doc));
    assert EventSubject(k, crc) == "documents" + "." + (k.tenant + "." + (p + "." + k.doc));
  }

  /** A subject is four tokens; the third is the partition, one of sixteen, in two decimal digits. */
  lemma SubjectTokens(k: Key, crc: nat, p: string)
    requires DotFree(k.tenant) && DotFree(k.doc) && p == TwoDigits(crc % EVENT_PARTITIONS)
    ensures Split(EventSubject(k, crc)) == ["documents", k.tenant, p, k.doc]
    ensures |p| == 2 && '0' <= p[0] <= '9' && '0' <= p[1] <= '9'
    ensures 10 * (p[0] - '0') as nat + (p[1] - '0') as nat == crc % 16
  {
    TwoDigitsDotFree(crc % EVENT_PARTITIONS);
    SplitLast(k.doc);
    SplitToken(p, k.doc);
    SplitToken(k.tenant, p + "." + k.doc);
    SplitToken("documents", k.tenant + "." + (p + "." + k.doc));
    assert EventSubject(k, crc) == "documents" + "." + (k.tenant + "." + (p + "." + k.doc));
    DigitsRead(crc % EVENT_PARTITIONS / 10);
    DigitsRead(crc % EVENT_PARTITIONS % 10);
  }

  lemma DigitsRead(d: nat)
    requires d < 10
    ensures '0' <= Digit(d) <= '9' && (Digit(d) - '0') as nat == d
  {
  }

  /** Conversely, splitting loses nothing: tokens are dot-free and a first dot separates head from tail. */
  lemma {:induction false} SplitOnlyAtDots(s: string)
    ensures forall i :: 0 <= i < |Split(s)| ==> DotFree(Split(s)[i])
    ensures |Split(s)| == 1 ==> Split(s)[0] == s
    ensures |Split(s)| > 1 ==>
              exists tail: string :: s == Split(s)[0] + "." + tail && Split(s)[1..] == Split(tail)
  {
    if s != [] {
      var rest := Split(s[1..]);
      SplitOnlyAtDots(s[1..]);
      if s[0] == '.' {
        assert Split(s)[1..] == rest && s == [] + "." + s[1..];
      } else {
        var head := [s[0]] + rest[0];
        if |rest| > 1 {
          var tail: string :| s[1..] == rest[0] + "." + tail && rest[1..] == Split(tail);
          assert s == head + "." + tail && Split(s)[1..] == Split(tail);
        } else {
          assert head == s;
        }
      }
    }
  }

  /** A key is found only in a subject of the four-token scheme, and it is what stands there. */
  lemma KeyOnlyFromScheme(s: string)
    requires DocumentKeyFromSubject(s).Some?
    ensures var k := DocumentKeyFromSubject(s).value;
            && DotFree(k.tenant) && DotFree(k.doc)
            && exists a: string, b: string, p: string ::
                 DotFree(p) && s == "documents" + "." + a && a == k.tenant + "." + b && b == p + "." + k.doc
  {
    var t := Split(s);
    SplitOnlyAtDots(s);
    var a: string :| s == t[0] + "." + a && t[1..] == Split(a);
    SplitOnlyAtDots(a);
    var b: string :| a == t[1] + "." + b && t[1..][1..] == Split(b);
    SplitOnlyAtDots(b);
    var c: string :| b == t[2] + "." + c && t[1..][1..][1..] == Split(c);
    SplitOnlyAtDots(c);
    assert c == t[3];
  }
}
