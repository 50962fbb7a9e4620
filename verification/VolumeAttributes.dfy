/** The parameters a VolumeAttributesClass may change: how the controller and the node check them,
    and how they are laid over the volume context whenever a volume is staged. */
module VolumeAttributes {
  import opened Wrappers
  import opened Strings

  type Params = map<string, string>

  const MUTABLE: set<string> := {
    "diskType", "replication", "ttl", "dataCenter", "dataLocality", "uidMap", "gidMap", "chunkSizeLimitMB",
    "volumeServerAccess", "readRetryTime", "concurrentReaders", "concurrentWriters", "cacheCapacityMB",
    "cacheMetaTtlSec", "writebackCache", "metadataFlushSeconds", "dlm"
  }

  const CAPACITY := "volumeCapacity"

  const WRITEBACK := "writebackCache"
  const DLM := "dlm"

  function Lookup(p: Params, key: string): Option<string> {
    if key in p then Some(p[key]) else None
  }

  /** Indexing a Go map: a missing key reads as the empty string. */
  function Get(p: Params, key: string): string {
    if key in p then p[key] else ""
  }

  // ---- values --------------------------------------------------------------------------------

  function ToLower(s: string): string {
    seq(|s|, i requires 0 <= i < |s| => LowerChar(s[i]))
  }

  predicate IsTrue(s: string) {
    s in {"1", "t", "T", "TRUE", "true", "True"}
  }

  predicate IsFalse(s: string) {
    s in {"0", "f", "F", "FALSE", "false", "False"}
  }

  /** strconv.ParseBool succeeds. */
  predicate IsBool(s: string) {
    IsTrue(s) || IsFalse(s)
  }

  function Value(digits: string): nat
    requires AllDigits(digits)
  {
    if digits == "" then 0
    else 10 * Value(digits[..|digits| - 1]) + (digits[|digits| - 1] as int - '0' as int)
  }

  predicate IsInt64(n: int) {
    -0x8000_0000_0000_0000 <= n < 0x8000_0000_0000_0000
  }

  type Int64 = n: int | IsInt64(n)

  /** strconv.ParseInt(s, 10, 64), and strconv.Atoi on a 64-bit machine. */
  function ParseInt(s: string): Option<Int64> {
    var negative := s != "" && s[0] == '-';
    var digits := if s != "" && (s[0] == '-' || s[0] == '+') then s[1..] else s;
    if digits == "" || !AllDigits(digits) then None
    else
      var magnitude: int := Value(digits);
      var n := if negative then -magnitude else magnitude;
      if IsInt64(n) then Some(n) else None
  }

  function Digits(n: nat): (s: string)
    ensures s != "" && AllDigits(s) && Value(s) == n
  {
    if n < 10 then [(n + '0' as int) as char]
    else
      var s := Digits(n / 10) + [(n % 10 + '0' as int) as char];
      assert s[..|s| - 1] == Digits(n / 10);
      s
  }

  /** strconv.FormatInt(n, 10) */
  function FormatInt(n: int): string {
    if n < 0 then "-" + Digits(-n) else Digits(n)
  }

  lemma ParseSigned(digits: string, n: int)
    requires digits != "" && AllDigits(digits) && IsInt64(n) && n + Value(digits) == 0
    ensures ParseInt("-" + digits) == Some(n)
  {
    assert ("-" + digits)[1..] == digits;
  }

  function Zeros(k: nat): string {
    seq(k, _ => '0')
  }

  lemma OneMoreDigit(front: string, k: nat, last: char) returns (k': nat)
    requires front != "" && AllDigits(front) && IsDigit(last) && front == Zeros(k) + Digits(Value(front))
    ensures front + [last] == Zeros(k') + Digits(10 * Value(front) + (last as int - '0' as int))
  {
    var n := 10 * Value(front) + (last as int - '0' as int);
    if Value(front) == 0 {
      k' := k + 1;
      assert Zeros(k') == Zeros(k) + "0";
      assert Digits(n) == [last];
    } else {
      k' := k;
      assert n / 10 == Value(front) && n % 10 == last as int - '0' as int;
      Associative(Zeros(k), Digits(Value(front)), [last]);
    }
  }

  lemma OneDigit(digit: char)
    requires IsDigit(digit)
    ensures Value([digit]) == digit as int - '0' as int && [digit] == Zeros(0) + Digits(Value([digit]))
  {
    assert [digit][..0] == "";
  }

  lemma ValueAppend(front: string, last: char)
    requires AllDigits(front) && IsDigit(last)
    ensures AllDigits(front + [last]) && Value(front + [last]) == 10 * Value(front) + (last as int - '0' as int)
  {
    assert (front + [last])[..|front|] == front;
  }

  /** A run of digits is its number in decimal, after any number of zeros. */
  lemma {:induction false} DigitsAreDecimal(digits: string) returns (k: nat)
    requires digits != "" && AllDigits(digits)
    ensures digits == Zeros(k) + Digits(Value(digits))
  {
    var front, last := digits[..|digits| - 1], digits[|digits| - 1];
    assert digits == front + [last];
    if front == "" {
      k := 0;
      assert digits == [last];
      OneDigit(last);
    } else {
      k := DigitsAreDecimal(front);
      ValueAppend(front, last);
      k := OneMoreDigit(front, k, last);
    }
  }

  lemma {:induction false} ValueOfDecimal(k: nat, n: nat)
    ensures AllDigits(Zeros(k) + Digits(n)) && Value(Zeros(k) + Digits(n)) == n
  {
    ZerosBefore(k, Digits(n));
  }

  lemma {:induction false} ZerosBefore(k: nat, digits: string)
    requires AllDigits(digits)
    ensures AllDigits(Zeros(k) + digits) && Value(Zeros(k) + digits) == Value(digits)
  {
    var s := Zeros(k) + digits;
    if digits == "" {
      assert s == Zeros(k);
      ZerosAreNothing(k);
    } else {
      var n := |digits| - 1;
      ZerosBefore(k, digits[..n]);
      assert s[..|s| - 1] == Zeros(k) + digits[..n] && s[|s| - 1] == digits[n];
    }
  }

  lemma {:induction false} ZerosAreNothing(k: nat)
    ensures AllDigits(Zeros(k)) && Value(Zeros(k)) == 0
  {
    if k > 0 {
      ZerosAreNothing(k - 1);
      assert Zeros(k)[..k - 1] == Zeros(k - 1);
    }
  }

  /** A decimal numeral: perhaps a sign, `k` zeros, and the number `m`. */
  predicate Reads(s: string, n: int, k: nat, m: nat) {
    || (n == m && s == Zeros(k) + Digits(m))
    || (n == m && s == "+" + (Zeros(k) + Digits(m)))
    || (n + m == 0 && s == "-" + (Zeros(k) + Digits(m)))
  }

  ghost predicate IsNumeral(s: string, n: int) {
    exists k, m :: Reads(s, n, k, m)
  }

  lemma ParsedIsNumeral(s: string, n: int)
    requires ParseInt(s) == Some(n)
    ensures IsNumeral(s, n)
  {
    var signed := s[0] == '-' || s[0] == '+';
    var digits := if signed then s[1..] else s;
    var k := DigitsAreDecimal(digits);
    assert signed ==> s == [s[0]] + digits;
    assert Reads(s, n, k, Value(digits));
  }

  lemma NumeralIsParsed(s: string, n: int, k: nat, m: nat)
    requires IsInt64(n) && Reads(s, n, k, m)
    ensures ParseInt(s) == Some(n)
  {
    var d := Zeros(k) + Digits(m);
    ValueOfDecimal(k, m);
    if n == m {
      ParseUnsigned(d, n);
    }
    if n + m == 0 {
      ParseSigned(d, n);
    }
  }

  /** Exactly the numerals of 64-bit numbers are parsed, each as its number. */
  lemma ParseIntIff(s: string, n: int)
    ensures ParseInt(s) == Some(n) <==> IsInt64(n) && IsNumeral(s, n)
  {
    if ParseInt(s) == Some(n) {
      ParsedIsNumeral(s, n);
    }
    if IsInt64(n) && IsNumeral(s, n) {
      var k, m :| Reads(s, n, k, m);
      NumeralIsParsed(s, n, k, m);
    }
  }

  lemma ParseUnsigned(digits: string, n: int)
    requires digits != "" && AllDigits(digits) && IsInt64(n) && n == Value(digits)
    ensures ParseInt(digits) == Some(n) && ParseInt("+" + digits) == Some(n)
  {
    assert IsDigit(digits[0]);
    assert ("+" + digits)[1..] == digits;
  }

  /** A capacity that has been written into a context is read back as the same number. */
  lemma ParseFormatInt(n: int)
    requires IsInt64(n)
    ensures ParseInt(FormatInt(n)) == Some(n)
  {
    if n < 0 {
      ParseSigned(Digits(-n), n);
    } else {
      ParseUnsigned(Digits(n), n);
    }
  }

  /** validateMutableParameterValues accepts the value. */
  predicate ValueOk(key: string, value: string) {
    value == "" ||
    if key == "dataLocality" then ToLower(value) in {"none", "write_preferlocaldc"}
    else if key in {"concurrentReaders", "concurrentWriters", "cacheCapacityMB", "cacheMetaTtlSec", "chunkSizeLimitMB", "metadataFlushSeconds"}
    then ParseInt(value).Some?
    else if key in {WRITEBACK, DLM} then IsBool(value)
    else true
  }

  function UpperChar(c: char): char {
    if 'a' <= c <= 'z' then (c as int - 32) as char else c
  }

  function ToUpper(s: string): string {
    seq(|s|, i requires 0 <= i < |s| => UpperChar(s[i]))
  }

  function Title(s: string): string {
    if s == "" then "" else [UpperChar(s[0])] + s[1..]
  }

  predicate Spells(s: string, word: string) {
    s == word || s == ToUpper(word) || s == Title(word)
  }

  /** A boolean is a digit, a word or its first letter; the word in small letters, in capitals, or with a
      capital in front. */
  lemma BooleanIff(s: string)
    ensures IsTrue(s) <==> s == "1" || Spells(s, "t") || Spells(s, "true")
    ensures IsFalse(s) <==> s == "0" || Spells(s, "f") || Spells(s, "false")
  {
    assert ToUpper("t") == "T" == Title("t") && ToUpper("f") == "F" == Title("f");
    assert ToUpper("true") == "TRUE" && Title("true") == "True";
    assert ToUpper("false") == "FALSE" && Title("false") == "False";
  }

  /** Which values are accepted: nothing at all; where they go, for data locality, in letters of any case; a
      64-bit numeral, for the six numbers; a boolean, for the two switches; and anything for every other key. */
  lemma ValueOkIff(key: string, value: string)
    ensures ValueOk(key, "")
    ensures key == "dataLocality" && value != "" ==> (ValueOk(key, value) <==> ToLower(value) == "none" || ToLower(value) == "write_preferlocaldc")
    ensures key in {"concurrentReaders", "concurrentWriters", "cacheCapacityMB", "cacheMetaTtlSec", "chunkSizeLimitMB", "metadataFlushSeconds"} && value != "" ==>
              (ValueOk(key, value) <==> exists n :: IsInt64(n) && IsNumeral(value, n))
    ensures key in {"writebackCache", "dlm"} && value != "" ==>
              (ValueOk(key, value) <==> value == "1" || value == "0" || Spells(value, "t") || Spells(value, "true") || Spells(value, "f") || Spells(value, "false"))
    ensures key in {"diskType", "replication", "ttl", "dataCenter", "uidMap", "gidMap", "volumeServerAccess", "readRetryTime"} ==> ValueOk(key, value)
  {
    BooleanIff(value);
    if ParseInt(value).Some? {
      ParseIntIff(value, ParseInt(value).value);
    }
    forall n | IsInt64(n) && IsNumeral(value, n) ensures ParseInt(value) == Some(n) {
      ParseIntIff(value, n);
    }
  }

  // ---- the three checks ----------------------------------------------------------------------

  predicate ValuesOk(p: Params) {
    forall k :: k in p && k in MUTABLE ==> ValueOk(k, p[k])
  }

  predicate ComboOk(p: Params) {
    !(IsTrue(Get(p, WRITEBACK)) && IsTrue(Get(p, DLM)))
  }

  predicate Modifiable(p: Params) {
    p.Keys <= MUTABLE && ValuesOk(p) && ComboOk(p)
  }

  datatype Verdict = Accepted | UnknownKeys(keys: set<string>) | InvalidValues(bad: set<string>) | Exclusive

  /** validateConstrainedParameterValues, a loop that stops at the first value it rejects. */
  method ValidateConstrainedParameterValues(params: Params) returns (ok: bool)
    ensures ok <==> forall k :: k in params && k in MUTABLE ==> ValueOk(k, params[k])
  {
    var rest := params.Keys;
    while rest != {}
      invariant rest <= params.Keys
      invariant forall k :: k in params && k !in rest && k in MUTABLE ==> ValueOk(k, params[k])
    {
      var key :| key in rest;
      rest := rest - {key};
      if key in MUTABLE && !ValueOk(key, params[key]) {
        return false;
      }
    }
    ok := true;
  }

  /** validateWritebackDlmCombo, with its two parses. */
  method ValidateWritebackDlmCombo(params: Params) returns (ok: bool)
    ensures ok <==> !(IsTrue(Get(params, WRITEBACK)) && IsTrue(Get(params, DLM)))
  {
    var wb, dlm := Get(params, WRITEBACK), Get(params, DLM);
    if wb != "" && dlm != "" {
      var bothParse := IsBool(wb) && IsBool(dlm);
      if bothParse && IsTrue(wb) && IsTrue(dlm) {
        return false;
      }
    }
    ok := true;
  }

  /** validateMutableParameters: unknown keys are reported before bad values, and those before the
      combination. */
  method ValidateMutableParameters(params: Params) returns (v: Verdict)
    ensures v.Accepted? <==> params.Keys <= MUTABLE && (forall k :: k in params ==> ValueOk(k, params[k]))
                             && !(IsTrue(Get(params, WRITEBACK)) && IsTrue(Get(params, DLM)))
    ensures v.UnknownKeys? ==> v.keys == params.Keys - MUTABLE && v.keys != {}
    ensures v.InvalidValues? ==> params.Keys <= MUTABLE && v.bad == (set k | k in params && !ValueOk(k, params[k])) && v.bad != {}
    ensures v.Exclusive? ==> params.Keys <= MUTABLE && (forall k :: k in params ==> ValueOk(k, params[k]))
                             && IsTrue(Get(params, WRITEBACK)) && IsTrue(Get(params, DLM))
  {
    var unknown, invalid: set<string> := {}, {};
    var rest := params.Keys;
    while rest != {}
      invariant rest <= params.Keys
      invariant unknown == (set k | k in params && k !in rest && k !in MUTABLE)
      invariant invalid == (set k | k in params && k !in rest && k in MUTABLE && !ValueOk(k, params[k]))
    {
      var key :| key in rest;
      rest := rest - {key};
      if key !in MUTABLE {
        unknown := unknown + {key};
      } else if !ValueOk(key, params[key]) {
        invalid := invalid + {key};
      }
    }
    if unknown != {} {
      return UnknownKeys(unknown);
    }
    assert forall k :: k in params ==> k in MUTABLE by {
      assert forall k :: k in params && k !in MUTABLE ==> k in unknown;
    }
    if invalid != {} {
      return InvalidValues(invalid);
    }
    assert forall k :: k in params ==> ValueOk(k, params[k]) by {
      assert forall k :: k in params && !ValueOk(k, params[k]) ==> k in invalid;
    }
    var combo := ValidateWritebackDlmCombo(params);
    v := if combo then Accepted else Exclusive;
  }

  // ---- laying persisted parameters over a context ----------------------------------------------

  function Merge(base: Params, persisted: Params): Params {
    map k | k in base.Keys + persisted.Keys * MUTABLE :: if k in persisted && k in MUTABLE then persisted[k] else base[k]
  }

  lemma SameLookups(p: Params, q: Params)
    requires forall k :: Lookup(p, k) == Lookup(q, k)
    ensures p == q
  {
    forall k ensures k in p <==> k in q
             ensures k in p && k in q ==> p[k] == q[k]
    {
      assert Lookup(p, k) == Lookup(q, k);
    }
  }

  /** `merged` is the result as far as the keys outside `rest` go. */
  ghost predicate MergedUpTo(base: Params, persisted: Params, rest: set<string>, merged: Params) {
    forall k :: Lookup(merged, k) == if k in persisted && k !in rest && k in MUTABLE then Some(persisted[k]) else Lookup(base, k)
  }

  lemma MergeOneMore(base: Params, persisted: Params, rest: set<string>, merged: Params, key: string)
    requires MergedUpTo(base, persisted, rest, merged) && key in rest && key in persisted
    ensures MergedUpTo(base, persisted, rest - {key}, if key in MUTABLE then merged[key := persisted[key]] else merged)
  {
    var longer := if key in MUTABLE then merged[key := persisted[key]] else merged;
    forall k ensures Lookup(longer, k) == if k in persisted && k !in rest - {key} && k in MUTABLE then Some(persisted[k]) else Lookup(base, k) {
      assert Lookup(longer, k) == if k == key && key in MUTABLE then Some(persisted[key]) else Lookup(merged, k);
    }
  }

  lemma MergedAll(base: Params, persisted: Params, merged: Params)
    requires MergedUpTo(base, persisted, {}, merged)
    ensures merged == Merge(base, persisted)
  {
    forall k ensures Lookup(merged, k) == Lookup(Merge(base, persisted), k) {
      MergeLookup(base, persisted, k);
    }
    SameLookups(merged, Merge(base, persisted));
  }

  /** mergePersistedVolumeAttributes changes the map it is given; here the changed map is returned. */
  method MergePersistedVolumeAttributes(volContext: Params, persisted: Params) returns (merged: Params)
    ensures merged == Merge(volContext, persisted)
  {
    merged := volContext;
    var rest := persisted.Keys;
    while rest != {}
      invariant rest <= persisted.Keys
      invariant MergedUpTo(volContext, persisted, rest, merged)
    {
      var key :| key in rest;
      MergeOneMore(volContext, persisted, rest, merged, key);
      rest := rest - {key};
      if key in MUTABLE {
        merged := merged[key := persisted[key]];
      }
    }
    MergedAll(volContext, persisted, merged);
  }

  lemma MergeLookup(base: Params, persisted: Params, k: string)
    ensures Lookup(Merge(base, persisted), k) == if k in persisted && k in MUTABLE then Some(persisted[k]) else Lookup(base, k)
  {
  }

  // ---- staging -------------------------------------------------------------------------------

  /** What the store of persisted parameters answers: a document (an unreachable store and a missing
      document read as an empty one), or a document that cannot be decoded. */
  datatype Document = Doc(params: Params) | CorruptDoc

  /** One staging: the document, and the capacity from the orchestrator if it answers. */
  datatype Staging = Staging(doc: Document, capacity: Option<Int64>)

  datatype Staged = Context(context: Params, capacity: Option<Int64>) | Refused

  /** resolveVolumeCapacity; a negative or malformed fallback value is an error. */
  function ResolveCapacity(answer: Option<Int64>, context: Params): Option<Option<Int64>> {
    if answer.Some? then Some(answer)
    else if Get(context, CAPACITY) == "" then Some(None)
    else match ParseInt(Get(context, CAPACITY))
         case None => None
         case Some(n) => if n < 0 then None else Some(Some(n))
  }

  /** The context that `stageNewVolume` hands to the mounter, or its refusal. */
  function StageContext(base: Params, s: Staging): Staged {
    if s.doc.CorruptDoc? then Refused
    else
      var effective := if s.doc.params == map[] then base else Merge(base, s.doc.params);
      if !ValuesOk(effective) || !ComboOk(effective) then Refused
      else match ResolveCapacity(s.capacity, effective)
           case None => Refused
           case Some(None) => Context(effective, None)
           case Some(Some(n)) => Context(effective[CAPACITY := FormatInt(n)], Some(n))
  }

  /** The key is read from the document if it is mutable and the document has it, else from `base`. */
  function Laid(base: Params, doc: Params, k: string): Option<string> {
    if k in MUTABLE && k in doc then Some(doc[k]) else Lookup(base, k)
  }

  /** What has to be handed to the mounter, key by key. The capacity is that of the orchestrator if it has
      answered, else the one in `base`. */
  ghost predicate StagedAs(base: Params, s: Staging, context: Params) {
    && s.doc.Doc?
    && (forall k :: k != CAPACITY ==> Lookup(context, k) == Laid(base, s.doc.params, k))
    && (s.capacity.Some? ==> ParseInt(Get(context, CAPACITY)) == s.capacity)
    && (s.capacity.None? ==> ParseInt(Get(context, CAPACITY)) == ParseInt(Get(base, CAPACITY)))
    && (s.capacity.None? && Get(base, CAPACITY) == "" ==> Get(context, CAPACITY) == "")
  }

  /** The capacity with which the quota is set. */
  function CapacityOf(base: Params, s: Staging): Option<Int64> {
    if s.capacity.Some? then s.capacity else ParseInt(Get(base, CAPACITY))
  }

  /** The value the key is to have is acceptable, if it is to have one. */
  predicate LaidOk(base: Params, doc: Params, k: string) {
    Laid(base, doc, k).Some? ==> ValueOk(k, Laid(base, doc, k).value)
  }

  predicate LaidTrue(base: Params, doc: Params, k: string) {
    Laid(base, doc, k).Some? && IsTrue(Laid(base, doc, k).value)
  }

  lemma MergedIsLaid(base: Params, doc: Params)
    ensures ValuesOk(Merge(base, doc)) <==> forall k :: k in MUTABLE ==> LaidOk(base, doc, k)
    ensures ComboOk(Merge(base, doc)) <==> !(LaidTrue(base, doc, WRITEBACK) && LaidTrue(base, doc, DLM))
  {
    var f := Merge(base, doc);
    forall k ensures Lookup(f, k) == Laid(base, doc, k) {
      MergeLookup(base, doc, k);
    }
    assert forall k :: k in f ==> Lookup(f, k) == Some(f[k]);
    assert Lookup(f, WRITEBACK) == Laid(base, doc, WRITEBACK) && Lookup(f, DLM) == Laid(base, doc, DLM);
    if forall k :: k in MUTABLE ==> LaidOk(base, doc, k) {
      forall k | k in f && k in MUTABLE ensures ValueOk(k, f[k]) {
        assert LaidOk(base, doc, k);
      }
    }
    if ValuesOk(f) {
      forall k | k in MUTABLE ensures LaidOk(base, doc, k) {
        assert Lookup(f, k) == Laid(base, doc, k);
      }
    }
  }

  lemma EmptyDocument(base: Params)
    ensures Merge(base, map[]) == base
  {
  }

  lemma SameCapacity(base: Params, doc: Params)
    ensures Get(Merge(base, doc), CAPACITY) == Get(base, CAPACITY) && Lookup(Merge(base, doc), CAPACITY) == Lookup(base, CAPACITY)
  {
    assert CAPACITY !in MUTABLE;
    MergeLookup(base, doc, CAPACITY);
  }

  /** Exactly when staging is refused: for a document that cannot be decoded, for a value the mount would
      refuse, for the two switches together, or for a capacity that is malformed or negative. */
  lemma RefusedIff(base: Params, s: Staging)
    ensures StageContext(base, s).Refused? <==>
              || s.doc.CorruptDoc?
              || (exists k :: k in MUTABLE && !LaidOk(base, s.doc.params, k))
              || (LaidTrue(base, s.doc.params, WRITEBACK) && LaidTrue(base, s.doc.params, DLM))
              || (s.capacity.None? && Get(base, CAPACITY) != "" && (ParseInt(Get(base, CAPACITY)).None? || ParseInt(Get(base, CAPACITY)).value < 0))
  {
    if s.doc.Doc? {
      EmptyDocument(base);
      MergedIsLaid(base, s.doc.params);
      SameCapacity(base, s.doc.params);
    }
  }

  /** And what comes out otherwise. */
  lemma StagedIsLaid(base: Params, s: Staging)
    requires StageContext(base, s).Context?
    ensures StagedAs(base, s, StageContext(base, s).context) && StageContext(base, s).capacity == CapacityOf(base, s)
  {
    var f, c := Merge(base, s.doc.params), StageContext(base, s);
    EmptyDocument(base);
    forall k ensures Lookup(f, k) == Laid(base, s.doc.params, k) {
      MergeLookup(base, s.doc.params, k);
    }
    SameCapacity(base, s.doc.params);
    if c.capacity.Some? {
      ParseFormatInt(c.capacity.value);
      assert c.context == f[CAPACITY := FormatInt(c.capacity.value)];
    }
    forall k | k != CAPACITY ensures Lookup(c.context, k) == Laid(base, s.doc.params, k) {
      assert Lookup(f, k) == Laid(base, s.doc.params, k);
    }
  }

  /** No context handed to the mounter asks for write-back caching and the lock manager at once, and
      none has a value the mount would refuse. */
  lemma StagedContextIsSound(base: Params, s: Staging)
    requires StageContext(base, s).Context?
    ensures var c := StageContext(base, s).context;
            && !(IsTrue(Get(c, WRITEBACK)) && IsTrue(Get(c, DLM)))
            && forall k :: k in c && k in MUTABLE ==> ValueOk(k, c[k])
  {
  }

  /** A re-stage starts from the context of the stage before; one that is refused changes nothing. */
  function Restage(context: Params, s: Staging): Params {
    match StageContext(context, s)
    case Context(c, _) => c
    case Refused => context
  }

  function Restages(context: Params, history: seq<Staging>): Params {
    if history == [] then context
    else Restage(Restages(context, history[..|history| - 1]), history[|history| - 1])
  }

  /** The value of `k` in the last document that contained it and was staged, else the original one. */
  function LastValue(context: Params, history: seq<Staging>, k: string): Option<string> {
    if history == [] then Lookup(context, k)
    else
      var before, last := history[..|history| - 1], history[|history| - 1];
      if StageContext(Restages(context, before), last).Context? && k in last.doc.params then Some(last.doc.params[k])
      else LastValue(context, before, k)
  }

  lemma RestageLookup(context: Params, s: Staging, k: string)
    requires k != CAPACITY
    ensures Lookup(Restage(context, s), k) ==
            if StageContext(context, s).Context? && k in s.doc.params && k in MUTABLE then Some(s.doc.params[k]) else Lookup(context, k)
  {
    if StageContext(context, s).Context? {
      MergeLookup(context, s.doc.params, k);
    }
  }

  /** Over any sequence of re-stages, with any documents: a structural key keeps the value it was
      provisioned with, a mutable key has the value of the last staged document that has it. */
  lemma {:induction false} ContextAfterRestages(context: Params, history: seq<Staging>, k: string)
    requires k != CAPACITY
    ensures k !in MUTABLE ==> Lookup(Restages(context, history), k) == Lookup(context, k)
    ensures k in MUTABLE ==> Lookup(Restages(context, history), k) == LastValue(context, history, k)
  {
    if history != [] {
      var before, last := history[..|history| - 1], history[|history| - 1];
      ContextAfterRestages(context, before, k);
      RestageLookup(Restages(context, before), last, k);
    }
  }

  /** The last capacity an orchestrator answered for a staging that was not refused, else the original one. */
  function LastCapacity(context: Params, history: seq<Staging>): Option<Int64> {
    if history == [] then ParseInt(Get(context, CAPACITY))
    else
      var before, last := history[..|history| - 1], history[|history| - 1];
      if StageContext(Restages(context, before), last).Context? && last.capacity.Some? then last.capacity
      else LastCapacity(context, before)
  }

  /** The capacity in the context is that one. */
  lemma {:induction false} CapacityAfterRestages(context: Params, history: seq<Staging>)
    ensures ParseInt(Get(Restages(context, history), CAPACITY)) == LastCapacity(context, history)
  {
    if history != [] {
      var before, last := history[..|history| - 1], history[|history| - 1];
      CapacityAfterRestages(context, before);
      if StageContext(Restages(context, before), last).Context? {
        StagedIsLaid(Restages(context, before), last);
      }
    }
  }

  // ---- the controller ------------------------------------------------------------------------

  function MutablePart(p: Params): Params {
    map k | k in p && k in MUTABLE :: p[k]
  }

  /** The set ControllerModifyVolume validates: the mutable PV attributes overlaid with the request. */
  function Effective(pv: Params, request: Params): Params {
    MutablePart(pv) + request
  }

  predicate Accepts(pv: Params, request: Params) {
    request != map[] && Modifiable(request) && ValuesOk(Effective(pv, request)) && ComboOk(Effective(pv, request))
  }

  /** What `stageNewVolume` demands of a merged context. */
  predicate Stageable(p: Params) {
    ValuesOk(p) && ComboOk(p)
  }

  datatype Modify = InvalidArgument | Internal | Modified(written: Params)

  /** The checks of ControllerModifyVolume, up to the write. `pv` is None when the PV cannot be read. */
  method ControllerModifyVolume(volumeID: string, pv: Option<Params>, request: Params) returns (r: Modify)
    ensures r.Modified? <==> volumeID != "" && pv.Some? && Accepts(pv.value, request)
    ensures r.Modified? ==> r.written == request
    ensures r.Internal? <==> volumeID != "" && request != map[] && Modifiable(request) && pv.None?
  {
    if volumeID == "" || request == map[] {
      return InvalidArgument;
    }
    var verdict := ValidateMutableParameters(request);
    if !verdict.Accepted? {
      return InvalidArgument;
    }
    if pv.None? {
      return Internal;
    }
    var effective: Params := map[];
    var rest := pv.value.Keys;
    while rest != {}
      invariant rest <= pv.value.Keys
      invariant effective == map k | k in pv.value && k !in rest && k in MUTABLE :: pv.value[k]
    {
      var key :| key in rest;
      rest := rest - {key};
      if key in MUTABLE {
        effective := effective[key := pv.value[key]];
      }
    }
    assert effective == MutablePart(pv.value);
    effective := effective + request;
    var values := ValidateConstrainedParameterValues(effective);
    if !values {
      return InvalidArgument;
    }
    var combo := ValidateWritebackDlmCombo(effective);
    r := if combo then Modified(request) else InvalidArgument;
  }

  lemma EffectiveIsMergeOnMutable(pv: Params, request: Params, k: string)
    requires request.Keys <= MUTABLE && k in MUTABLE
    ensures Lookup(Effective(pv, request), k) == Lookup(Merge(pv, request), k)
  {
  }

  /** The controller's check on the mutable subset decides the same question as the node's check on
      the whole merged context. */
  lemma ControllerAndNodeAgree(pv: Params, request: Params)
    requires request.Keys <= MUTABLE
    ensures ValuesOk(Effective(pv, request)) && ComboOk(Effective(pv, request)) <==> Stageable(Merge(pv, request))
  {
    var e, f := Effective(pv, request), Merge(pv, request);
    forall k | k in MUTABLE ensures Lookup(e, k) == Lookup(f, k) {
      EffectiveIsMergeOnMutable(pv, request, k);
    }
    assert WRITEBACK in MUTABLE && DLM in MUTABLE;
    assert Lookup(e, WRITEBACK) == Lookup(f, WRITEBACK) && Lookup(e, DLM) == Lookup(f, DLM);
    forall k | k in MUTABLE ensures (k in e <==> k in f) && (k in e ==> e[k] == f[k]) {
      assert Lookup(e, k) == Lookup(f, k);
    }
  }

  /** The controller accepts exactly the requests for mutable keys that the node would stage with. */
  lemma AcceptedIff(pv: Params, request: Params, capacity: Int64)
    ensures Accepts(pv, request) <==>
              request != map[] && request.Keys <= MUTABLE && StageContext(pv, Staging(Doc(request), Some(capacity))).Context?
  {
    if request.Keys <= MUTABLE {
      ControllerAndNodeAgree(pv, request);
      assert forall k :: k in request ==> k in Effective(pv, request) && Effective(pv, request)[k] == request[k];
    }
  }

  /** A modification that was accepted and written never makes the next staging from the PV
      attributes fail: only a malformed capacity, which the controller does not look at, can. */
  lemma AcceptedModificationStages(pv: Params, request: Params, capacity: Option<Int64>)
    requires Accepts(pv, request)
    ensures StageContext(pv, Staging(Doc(request), capacity)).Context? <==>
              capacity.Some? || Get(pv, CAPACITY) == "" || (ParseInt(Get(pv, CAPACITY)).Some? && ParseInt(Get(pv, CAPACITY)).value >= 0)
  {
    ControllerAndNodeAgree(pv, request);
    MergedIsLaid(pv, request);
    RefusedIff(pv, Staging(Doc(request), capacity));
  }

  /** One of the two switches is turned on by the request while the other is on in `context` and not
      mentioned in the request. */
  predicate LeftOn(context: Params, request: Params) {
    || (IsTrue(Get(request, WRITEBACK)) && DLM !in request && IsTrue(Get(context, DLM)))
    || (IsTrue(Get(request, DLM)) && WRITEBACK !in request && IsTrue(Get(context, WRITEBACK)))
  }

  /** Recovery re-stages from a context into which earlier documents are already merged. There an
      accepted modification is refused exactly when an earlier document left the other switch on. */
  lemma RestageFromMergedContext(context: Params, request: Params)
    requires Stageable(context) && Modifiable(request)
    ensures Stageable(Merge(context, request)) <==> !LeftOn(context, request)
  {
    var f := Merge(context, request);
    MergeLookup(context, request, WRITEBACK);
    MergeLookup(context, request, DLM);
    assert WRITEBACK in MUTABLE && DLM in MUTABLE;
    assert Get(f, WRITEBACK) == if WRITEBACK in request then request[WRITEBACK] else Get(context, WRITEBACK);
    assert Get(f, DLM) == if DLM in request then request[DLM] else Get(context, DLM);
    forall k | k in f && k in MUTABLE ensures ValueOk(k, f[k]) {
      MergeLookup(context, request, k);
    }
  }

  lemma SwitchIsAccepted(key: string)
    requires key == WRITEBACK || key == DLM
    ensures var pv: Params, request := map[], map[key := "true"];
            Accepts(pv, request) && StageContext(pv, Staging(Doc(request), None)) == Context(request, None)
  {
    var pv: Params, request := map[], map[key := "true"];
    assert key in MUTABLE && key in request;
    assert Effective(pv, request) == request && Merge(pv, request) == request;
  }

  /** It does happen: a class turns write-back caching on, a later one turns the lock manager on
      instead. The controller accepts both, a staging from the PV succeeds, and the re-stage of a
      recovery is refused. */
  lemma AcceptedModificationCanBlockRecovery()
    ensures
      var pv: Params, first, second := map[], map[WRITEBACK := "true"], map[DLM := "true"];
      var staged := StageContext(pv, Staging(Doc(first), None));
      && Accepts(pv, first) && Accepts(pv, second)
      && StageContext(pv, Staging(Doc(second), None)).Context?
      && staged.Context? && StageContext(staged.context, Staging(Doc(second), None)).Refused?
  {
    SwitchIsAccepted(WRITEBACK);
    SwitchIsAccepted(DLM);
    RestageFromMergedContext(map[WRITEBACK := "true"], map[DLM := "true"]);
  }
}
