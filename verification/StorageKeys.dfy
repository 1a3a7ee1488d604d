/** The names of a job's objects, and which of them a finished attempt leaves
    behind: printing them is injective, so deleting by name deletes what was
    meant. */
module StorageKeys {

  /** `user` and `job` are the 36 character texts of two UUIDs. */
  datatype Key = Key(dispatch: bool, user: string, job: string, attempt: nat, thumbnail: bool)

  predicate UuidChar(c: char) { '0' <= c <= '9' || 'a' <= c <= 'f' || c == '-' }

  predicate IsUuid(s: string) {
    |s| == 36 && forall c | c in s :: UuidChar(c)
  }

  predicate Proper(k: Key) {
    IsUuid(k.user) && IsUuid(k.job) && k.attempt >= 1
  }

  function Digit(d: nat): char
    requires d < 10
  {
    "0123456789"[d]
  }

  function Decimal(n: nat): string {
    if n < 10 then [Digit(n)] else Decimal(n / 10) + [Digit(n % 10)]
  }

  const DISPATCH := "dispatch/"
  const ATTEMPT := "-attempt-"

  function Suffix(thumbnail: bool): string {
    if thumbnail then "-thumb.webp" else ".png"
  }

  function Stem(user: string, job: string, attempt: nat): string {
    user + "/" + job + ATTEMPT + Decimal(attempt)
  }

  function Printed(k: Key): string {
    (if k.dispatch then DISPATCH else "") + Stem(k.user, k.job, k.attempt) + Suffix(k.thumbnail)
  }

  // ----- decimals -----

  predicate IsDigit(c: char) { '0' <= c <= '9' }

  predicate Digits(s: string) {
    forall c | c in s :: IsDigit(c)
  }

  lemma {:induction false} DecimalIsDigits(n: nat)
    ensures Decimal(n) != "" && Digits(Decimal(n))
    ensures n >= 10 ==> |Decimal(n)| >= 2
  {
    if n >= 10 {
      DecimalIsDigits(n / 10);
    }
  }

  lemma DigitIsInjective(c: nat, d: nat)
    requires c < 10 && d < 10 && Digit(c) == Digit(d)
    ensures c == d
  {
  }

  lemma {:induction false} DecimalIsInjective(m: nat, n: nat)
    requires Decimal(m) == Decimal(n)
    ensures m == n
  {
    DecimalIsDigits(m);
    DecimalIsDigits(n);
    if m >= 10 && n >= 10 {
      var x, y := Decimal(m), Decimal(n);
      assert x[..|x| - 1] == Decimal(m / 10) && y[..|y| - 1] == Decimal(n / 10);
      assert x[|x| - 1] == Digit(m % 10) && y[|y| - 1] == Digit(n % 10);
      DecimalIsInjective(m / 10, n / 10);
      DigitIsInjective(m % 10, n % 10);
    } else {
      assert m < 10 && n < 10;
      assert Decimal(m)[0] == Digit(m) && Decimal(n)[0] == Digit(n);
      DigitIsInjective(m, n);
    }
  }

  lemma NotShorter(a: string, x: string, b: string, y: string)
    requires Digits(b) && x != "" && !IsDigit(x[0]) && a + x == b + y
    ensures |a| >= |b|
  {
    assert (a + x)[|a|] == x[0];
    forall i | 0 <= i < |b|
      ensures IsDigit((a + x)[i])
    {
      assert (b + y)[i] == b[i] && b[i] in b;
    }
  }

  /** Digits end where something else begins. */
  lemma DigitsEnd(a: string, x: string, b: string, y: string)
    requires Digits(a) && Digits(b) && x != "" && y != "" && !IsDigit(x[0]) && !IsDigit(y[0])
    requires a + x == b + y
    ensures a == b && x == y
  {
    NotShorter(a, x, b, y);
    NotShorter(b, y, a, x);
    assert (a + x)[..|a|] == a && (b + y)[..|b|] == b;
    assert (a + x)[|a|..] == x && (b + y)[|b|..] == y;
  }

  // ----- printing is injective -----

  /** The printed key without its area. */
  function Name(k: Key): string {
    k.user + "/" + k.job + ATTEMPT + (Decimal(k.attempt) + Suffix(k.thumbnail))
  }

  lemma PrintedParts(k: Key)
    ensures Printed(k) == (if k.dispatch then DISPATCH else "") + Name(k)
  {
  }

  lemma NamesDiffer(k: Key, l: Key)
    requires Proper(k) && Proper(l) && Name(k) == Name(l)
    ensures k.user == l.user && k.job == l.job && k.attempt == l.attempt && k.thumbnail == l.thumbnail
  {
    var a, b := Name(k), Name(l);
    assert a[..36] == k.user && b[..36] == l.user;
    assert a[37..73] == k.job && b[37..73] == l.job;
    assert a[82..] == Decimal(k.attempt) + Suffix(k.thumbnail);
    assert b[82..] == Decimal(l.attempt) + Suffix(l.thumbnail);
    DecimalIsDigits(k.attempt);
    DecimalIsDigits(l.attempt);
    DigitsEnd(Decimal(k.attempt), Suffix(k.thumbnail), Decimal(l.attempt), Suffix(l.thumbnail));
    DecimalIsInjective(k.attempt, l.attempt);
    assert Suffix(true)[0] != Suffix(false)[0];
  }

  lemma AreasDiffer(k: Key, l: Key)
    requires Proper(k) && Proper(l) && !k.dispatch && l.dispatch
    ensures Printed(k) != Printed(l)
  {
    PrintedParts(k);
    PrintedParts(l);
    assert Printed(k)[1] == k.user[1] && k.user[1] in k.user;
    assert Printed(l)[1] == 'i';
  }

  /** Two keys never share a name. */
  lemma PrintingIsInjective(k: Key, l: Key)
    requires Proper(k) && Proper(l) && Printed(k) == Printed(l)
    ensures k == l
  {
    if k.dispatch != l.dispatch {
      if l.dispatch {
        AreasDiffer(k, l);
      } else {
        AreasDiffer(l, k);
      }
    } else {
      PrintedParts(k);
      PrintedParts(l);
      if k.dispatch {
        assert Printed(k)[9..] == Name(k) && Printed(l)[9..] == Name(l);
      } else {
        assert Printed(k) == Name(k) && Printed(l) == Name(l);
      }
      NamesDiffer(k, l);
    }
  }

  // ----- what a finished attempt leaves behind -----

  function StorageKeysFor(user: string, job: string, attempt: nat): seq<string> {
    [Printed(Key(false, user, job, attempt, false)), Printed(Key(false, user, job, attempt, true))]
  }

  function DispatchKeysFor(user: string, job: string, attempt: nat): seq<string> {
    [Printed(Key(true, user, job, attempt, false)), Printed(Key(true, user, job, attempt, true))]
  }

  /** One of this job's objects: an upload of one of the first `uploads`
      attempts or a library copy of one of the first `library`. */
  predicate Among(k: Key, user: string, job: string, uploads: nat, library: nat) {
    k.user == user && k.job == job && 1 <= k.attempt <= if k.dispatch then uploads else library
  }

  ghost predicate Covered(name: string, user: string, job: string, uploads: nat, library: nat) {
    exists k :: Printed(k) == name && Among(k, user, job, uploads, library)
  }

  ghost predicate Covers(keys: seq<string>, user: string, job: string, uploads: nat, library: nat) {
    forall name :: name in keys <==> Covered(name, user, job, uploads, library)
  }

  lemma MoreUploads(keys: seq<string>, user: string, job: string, n: nat, library: nat)
    requires Covers(keys, user, job, n, library)
    ensures Covers(keys + DispatchKeysFor(user, job, n + 1), user, job, n + 1, library)
  {
    var more := DispatchKeysFor(user, job, n + 1);
    forall name
      ensures name in keys + more <==> Covered(name, user, job, n + 1, library)
    {
      if name in more {
        assert Among(Key(true, user, job, n + 1, name == more[1]), user, job, n + 1, library);
      }
      if Covered(name, user, job, n + 1, library) {
        var k :| Printed(k) == name && Among(k, user, job, n + 1, library);
        assert k == Key(true, user, job, n + 1, k.thumbnail) || Among(k, user, job, n, library);
      }
    }
  }

  lemma MoreCopies(keys: seq<string>, user: string, job: string, uploads: nat, n: nat)
    requires Covers(keys, user, job, uploads, n)
    ensures Covers(keys + StorageKeysFor(user, job, n + 1), user, job, uploads, n + 1)
  {
    var more := StorageKeysFor(user, job, n + 1);
    forall name
      ensures name in keys + more <==> Covered(name, user, job, uploads, n + 1)
    {
      if name in more {
        assert Among(Key(false, user, job, n + 1, name == more[1]), user, job, uploads, n + 1);
      }
      if Covered(name, user, job, uploads, n + 1) {
        var k :| Printed(k) == name && Among(k, user, job, uploads, n + 1);
        assert k == Key(false, user, job, n + 1, k.thumbnail) || Among(k, user, job, uploads, n);
      }
    }
  }

  /** Deleted after a success: every upload, and the library copies of earlier
      attempts. */
  method SuccessOrphanKeys(user: string, job: string, attempt: nat) returns (orphans: seq<string>)
    requires attempt >= 1
    ensures Covers(orphans, user, job, attempt, attempt - 1)
  {
    orphans := [];
    var earlier := 1;
    while earlier <= attempt
      invariant 1 <= earlier <= attempt + 1
      invariant Covers(orphans, user, job, earlier - 1, if earlier <= attempt then earlier - 1 else attempt - 1)
    {
      MoreUploads(orphans, user, job, earlier - 1, earlier - 1);
      orphans := orphans + DispatchKeysFor(user, job, earlier);
      if earlier < attempt {
        MoreCopies(orphans, user, job, earlier, earlier - 1);
        orphans := orphans + StorageKeysFor(user, job, earlier);
      }
      earlier := earlier + 1;
    }
  }

  /** Deleted after a failure: everything. */
  method AttemptKeys(user: string, job: string, attempt: nat) returns (keys: seq<string>)
    ensures Covers(keys, user, job, attempt, attempt)
  {
    keys := [];
    var earlier := 1;
    while earlier <= attempt
      invariant 1 <= earlier <= attempt + 1
      invariant Covers(keys, user, job, earlier - 1, earlier - 1)
    {
      MoreUploads(keys, user, job, earlier - 1, earlier - 1);
      keys := keys + DispatchKeysFor(user, job, earlier);
      MoreCopies(keys, user, job, earlier, earlier - 1);
      keys := keys + StorageKeysFor(user, job, earlier);
      earlier := earlier + 1;
    }
  }

  /** The deleted names are exactly this job's uploads and its earlier library
      copies: none that an asset row of the winning attempt names, and none of
      another job's. */
  lemma OrphansExactly(orphans: seq<string>, user: string, job: string, attempt: nat, k: Key)
    requires IsUuid(user) && IsUuid(job) && attempt >= 1
    requires Covers(orphans, user, job, attempt, attempt - 1) && Proper(k)
    ensures Printed(k) in orphans <==>
      k.user == user && k.job == job && (if k.dispatch then k.attempt <= attempt else k.attempt < attempt)
  {
    if Printed(k) in orphans {
      assert Covered(Printed(k), user, job, attempt, attempt - 1);
      var l :| Printed(l) == Printed(k) && Among(l, user, job, attempt, attempt - 1);
      PrintingIsInjective(k, l);
    }
    if Among(k, user, job, attempt, attempt - 1) {
      assert Covered(Printed(k), user, job, attempt, attempt - 1);
    }
  }

  /** The orphans and the winner's library copies are together exactly the
      objects of the attempts up to the winning one. */
  lemma NothingIsLeftOver(orphans: seq<string>, user: string, job: string, attempt: nat)
    requires attempt >= 1 && Covers(orphans, user, job, attempt, attempt - 1)
    ensures Covers(orphans + StorageKeysFor(user, job, attempt), user, job, attempt, attempt)
  {
    MoreCopies(orphans, user, job, attempt, attempt - 1);
  }
}
