/** Runner classes: the names derived from them, their validation, and why classes that share one Incus
    project never get in each other's way. */
module ClassConfig {
  import opened Tracking
  import opened Decimals
  import opened RunnerNames

  datatype RunnerClass = RunnerClass(vcpus: int, memoryGiB: int, diskGiB: int, arch: string, maxRunners: int)

  // ----- scale-set names -----

  /** The part of the name that describes the class: 4vcpu-8gb-40gb-amd64. */
  function Shape(c: RunnerClass): string {
    Decimal(c.vcpus) + ("vcpu-" + (Decimal(c.memoryGiB) + ("gb-" + (Decimal(c.diskGiB) + ("gb-" + Lower(c.arch))))))
  }

  function ScaleSetName(c: RunnerClass, prefix: string): string {
    prefix + "-" + Shape(c)
  }

  lemma Concatenated(x: string, t: string)
    requires t != ""
    ensures (x + t)[|x|] == t[0] && forall i :: 0 <= i < |x| ==> (x + t)[i] == x[i]
    ensures (x + t)[..|x|] == x && (x + t)[|x|..] == t
  {}

  /** A number can be read off unambiguously when something else follows it. */
  lemma NumberThenRest(x: string, t: string, y: string, u: string)
    requires x + t == y + u && t != "" && u != "" && !Numeric(t[0]) && !Numeric(u[0])
    requires (forall i :: 0 <= i < |x| ==> Numeric(x[i])) && (forall i :: 0 <= i < |y| ==> Numeric(y[i]))
    ensures x == y && t == u
  {
    Concatenated(x, t);
    Concatenated(y, u);
    assert |x| == |y|;
  }

  lemma SameTail(lit: string, t: string, u: string)
    requires lit + t == lit + u
    ensures t == u
  {
    assert (lit + t)[|lit|..] == t && (lit + u)[|lit|..] == u;
  }

  lemma DecimalsNumeric(c: RunnerClass)
    ensures forall i :: 0 <= i < |Decimal(c.vcpus)| ==> Numeric(Decimal(c.vcpus)[i])
    ensures forall i :: 0 <= i < |Decimal(c.memoryGiB)| ==> Numeric(Decimal(c.memoryGiB)[i])
    ensures forall i :: 0 <= i < |Decimal(c.diskGiB)| ==> Numeric(Decimal(c.diskGiB)[i])
  {
    DecimalNumeric(c.vcpus);
    DecimalNumeric(c.memoryGiB);
    DecimalNumeric(c.diskGiB);
  }

  /** The encoding is injective on all classes, also on ones that validation rejects. */
  lemma ShapeInjective(c: RunnerClass, d: RunnerClass)
    requires Shape(c) == Shape(d)
    ensures c.vcpus == d.vcpus && c.memoryGiB == d.memoryGiB && c.diskGiB == d.diskGiB && Lower(c.arch) == Lower(d.arch)
  {
    var diskC, diskD := "gb-" + Lower(c.arch), "gb-" + Lower(d.arch);
    var memC, memD := "gb-" + (Decimal(c.diskGiB) + diskC), "gb-" + (Decimal(d.diskGiB) + diskD);
    var cpuC, cpuD := "vcpu-" + (Decimal(c.memoryGiB) + memC), "vcpu-" + (Decimal(d.memoryGiB) + memD);
    DecimalsNumeric(c);
    DecimalsNumeric(d);
    NumberThenRest(Decimal(c.vcpus), cpuC, Decimal(d.vcpus), cpuD);
    DecimalInjective(c.vcpus, d.vcpus);
    SameTail("vcpu-", Decimal(c.memoryGiB) + memC, Decimal(d.memoryGiB) + memD);
    NumberThenRest(Decimal(c.memoryGiB), memC, Decimal(d.memoryGiB), memD);
    DecimalInjective(c.memoryGiB, d.memoryGiB);
    SameTail("gb-", Decimal(c.diskGiB) + diskC, Decimal(d.diskGiB) + diskD);
    NumberThenRest(Decimal(c.diskGiB), diskC, Decimal(d.diskGiB), diskD);
    DecimalInjective(c.diskGiB, d.diskGiB);
    SameTail("gb-", Lower(c.arch), Lower(d.arch));
  }

  predicate SameShape(c: RunnerClass, d: RunnerClass) {
    c.vcpus == d.vcpus && c.memoryGiB == d.memoryGiB && c.diskGiB == d.diskGiB && Lower(c.arch) == Lower(d.arch)
  }

  /** Under one prefix two classes share a scale-set name exactly if they agree on everything in it. */
  lemma ScaleSetNameInjective(c: RunnerClass, d: RunnerClass, prefix: string)
    ensures ScaleSetName(c, prefix) == ScaleSetName(d, prefix) <==>
      c.vcpus == d.vcpus && c.memoryGiB == d.memoryGiB && c.diskGiB == d.diskGiB && Lower(c.arch) == Lower(d.arch)
  {
    if ScaleSetName(c, prefix) == ScaleSetName(d, prefix) {
      SameTail(prefix + "-", Shape(c), Shape(d));
      ShapeInjective(c, d);
    }
  }

  lemma Reassociated(a: string, b: string, c: string, d: string, e: string)
    ensures a + (b + (c + (d + e))) == a + b + c + d + e
  {}

  /** Spelled out: the prefix, the three numbers in their places, each readable as what the class says, and the
      architecture. */
  lemma ScaleSetNameReads(c: RunnerClass, prefix: string) returns (vcpus: string, memory: string, disk: string)
    ensures ScaleSetName(c, prefix)
            == prefix + "-" + vcpus + "vcpu-" + memory + "gb-" + disk + "gb-" + Lower(c.arch)
    ensures vcpus == Decimal(c.vcpus) && memory == Decimal(c.memoryGiB) && disk == Decimal(c.diskGiB)
    ensures Read(vcpus) == c.vcpus && Read(memory) == c.memoryGiB && Read(disk) == c.diskGiB
  {
    vcpus, memory, disk := Decimal(c.vcpus), Decimal(c.memoryGiB), Decimal(c.diskGiB);
    ReadBack(c.vcpus);
    ReadBack(c.memoryGiB);
    ReadBack(c.diskGiB);
    var tail := disk + ("gb-" + Lower(c.arch));
    Reassociated(prefix + "-", vcpus, "vcpu-", memory, "gb-" + tail);
    Reassociated(prefix + "-" + vcpus + "vcpu-" + memory, "gb-", disk, "gb-", Lower(c.arch));
  }

  // ----- validation -----

  const MAX_SCALE_SET_NAME_LENGTH := 54

  /** The bytes of a character in UTF-8, which is what len counts. */
  function Bytes(c: char): nat {
    if c < '\U{0080}' then 1 else if c < '\U{0800}' then 2 else if c < '\U{10000}' then 3 else 4
  }

  function ByteLength(s: string): nat {
    if s == "" then 0 else ByteLength(s[..|s| - 1]) + Bytes(s[|s| - 1])
  }

  /** Where s has a character from c on. */
  function From(s: string, c: char): set<nat> {
    set i: nat | i < |s| && s[i] >= c
  }

  lemma FromMore(s: string, c: char)
    requires s != ""
    ensures |From(s, c)| == |From(s[..|s| - 1], c)| + (if s[|s| - 1] >= c then 1 else 0)
  {
    var n := |s| - 1;
    assert From(s, c) == From(s[..n], c) + (if s[n] >= c then {n} else {});
  }

  /** Spelled out: one byte for each character, one more from U+0080, one more from U+0800 and from U+10000 on. */
  lemma {:induction false} ByteLengthMeans(s: string)
    ensures ByteLength(s)
      == |s| + |From(s, '\U{80}')| + |From(s, '\U{800}')| + |From(s, '\U{10000}')|
  {
    if s == "" {
      assert From(s, '\U{80}') == {} && From(s, '\U{800}') == {} && From(s, '\U{10000}') == {};
    } else {
      ByteLengthMeans(s[..|s| - 1]);
      FromMore(s, '\U{80}');
      FromMore(s, '\U{800}');
      FromMore(s, '\U{10000}');
    }
  }

  lemma ByteLengthBounds(s: string)
    ensures |s| <= ByteLength(s)
  {
    ByteLengthMeans(s);
  }

  lemma Ascii(s: string)
    requires forall i :: 0 <= i < |s| ==> s[i] < '\U{80}'
    ensures ByteLength(s) == |s|
  {
    ByteLengthMeans(s);
    assert From(s, '\U{80}') == {} && From(s, '\U{800}') == {} && From(s, '\U{10000}') == {};
  }

  predicate LowerLetter(c: char) {
    'a' <= c <= 'z'
  }

  /** Lower-case letters, digits and dashes; starts with a letter, does not end in a dash. */
  predicate ValidNamePrefix(s: string) {
    || (|s| >= 2 && LowerLetter(s[0]) && Alnum(s[|s| - 1])
        && forall i :: 0 < i < |s| - 1 ==> Alnum(s[i]) || s[i] == '-')
    || (|s| == 1 && LowerLetter(s[0]))
  }

  /** Spelled out. */
  lemma PrefixMeans(s: string)
    ensures ValidNamePrefix(s) <==>
      s != "" && 'a' <= s[0] <= 'z' && s[|s| - 1] != '-'
      && forall i :: 0 <= i < |s| ==> 'a' <= s[i] <= 'z' || '0' <= s[i] <= '9' || s[i] == '-'
  {}

  predicate ValidArch(arch: string) {
    arch == "amd64" || arch == "arm64"
  }

  datatype ClassError =
    | BadPrefix | NoClasses
    | BadVcpus(i: nat) | BadMemory(i: nat) | BadDisk(i: nat) | BadMax(i: nat) | BadArch(i: nat)
    | NameTooLong(i: nat) | Duplicate(i: nat) | MixedArch(i: nat)

  predicate TooLong(c: RunnerClass, prefix: string) {
    ByteLength(ScaleSetName(c, prefix)) > MAX_SCALE_SET_NAME_LENGTH
  }

  predicate GoodClass(c: RunnerClass, prefix: string) {
    c.vcpus > 0 && c.memoryGiB > 0 && c.diskGiB > 0 && c.maxRunners > 0 && ValidArch(c.arch)
    && !TooLong(c, prefix)
  }

  /** The scale-set names of the classes, in order. */
  function Names(classes: seq<RunnerClass>, prefix: string): seq<string> {
    seq(|classes|, i requires 0 <= i < |classes| => ScaleSetName(classes[i], prefix))
  }

  /** Every class is good on its own, no two have the same name, and with a baked image all are of one
      architecture. */
  ghost predicate Acceptable(classes: seq<RunnerClass>, prefix: string, baked: bool) {
    && ValidNamePrefix(prefix) && classes != []
    && (forall i :: 0 <= i < |classes| ==> GoodClass(classes[i], prefix))
    && (var names := Names(classes, prefix); forall i, j :: 0 <= i < j < |names| ==> names[i] != names[j])
    && (baked ==> forall i :: 0 <= i < |classes| ==> classes[i].arch == classes[0].arch)
  }

  /** The architecture the baked image is taken to have after n classes: the first that is not empty. */
  function BakedArch(classes: seq<RunnerClass>, n: nat): string
    requires n <= |classes|
  {
    if n == 0 then "" else
    var arch := BakedArch(classes, n - 1);
    if arch == "" then classes[n - 1].arch else arch
  }

  predicate OfClass(e: ClassError, i: nat) {
    !e.BadPrefix? && !e.NoClasses? && e.i == i
  }

  /** What is wrong with the class that e complains about. */
  predicate Wrong(c: RunnerClass, tooLong: bool, repeated: bool, otherArch: bool, e: ClassError) {
    match e
    case BadVcpus(_) => c.vcpus <= 0
    case BadMemory(_) => c.memoryGiB <= 0
    case BadDisk(_) => c.diskGiB <= 0
    case BadMax(_) => c.maxRunners <= 0
    case BadArch(_) => !ValidArch(c.arch)
    case NameTooLong(_) => tooLong
    case Duplicate(_) => repeated
    case MixedArch(_) => otherArch
    case _ => false
  }

  /** The name has occurred before. */
  predicate Repeated(names: seq<string>, n: nat)
    requires n < |names|
  {
    names[n] in names[..n]
  }

  /** The complaint is justified, as far as the first n classes go. */
  predicate Justified(classes: seq<RunnerClass>, n: nat, prefix: string, baked: bool, e: ClassError)
    requires n <= |classes|
  {
    if e.BadPrefix? then !ValidNamePrefix(prefix)
    else if e.NoClasses? then classes == []
    else
      e.i < n && Wrong(classes[e.i], TooLong(classes[e.i], prefix), Repeated(Names(classes, prefix), e.i),
                       baked && classes[e.i].arch != BakedArch(classes, e.i + 1), e)
  }

  function Elements(names: seq<string>): set<string> {
    set name | name in names
  }

  lemma OneMoreName(names: seq<string>, n: nat)
    requires n < |names|
    ensures Elements(names[..n + 1]) == Elements(names[..n]) + {names[n]}
  {
    assert names[..n + 1] == names[..n] + [names[n]];
  }

  /** Reports e unless the condition holds. */
  method Check(errs: seq<ClassError>, condition: bool, e: ClassError) returns (errs': seq<ClassError>)
    ensures forall x :: x in errs' <==> x in errs || (!condition && x == e)
  {
    return if condition then errs else errs + [e];
  }

  /** What is reported for the i-th class on its own. */
  method CheckShape(c: RunnerClass, i: nat, prefix: string) returns (found: seq<ClassError>)
    ensures forall e :: e in found <==> OfClass(e, i) && Wrong(c, TooLong(c, prefix), false, false, e)
  {
    found := Check([], c.vcpus > 0, BadVcpus(i));
    found := Check(found, c.memoryGiB > 0, BadMemory(i));
    found := Check(found, c.diskGiB > 0, BadDisk(i));
    found := Check(found, c.maxRunners > 0, BadMax(i));
    found := Check(found, ValidArch(c.arch), BadArch(i));
    found := Check(found, !TooLong(c, prefix), NameTooLong(i));
  }

  /** The body of the loop: what is reported for the i-th class, and the architecture that the baked image
      is taken to have from then on. */
  method CheckClass(c: RunnerClass, i: nat, prefix: string, baked: bool, seen: set<string>, bakedArch: string)
      returns (found: seq<ClassError>, arch: string)
    ensures arch == if baked && bakedArch == "" then c.arch else bakedArch
    ensures forall e :: e in found <==>
      OfClass(e, i) && Wrong(c, TooLong(c, prefix), ScaleSetName(c, prefix) in seen, baked && c.arch != arch, e)
  {
    arch := bakedArch;
    found := CheckShape(c, i, prefix);
    found := Check(found, ScaleSetName(c, prefix) !in seen, Duplicate(i));
    if baked {
      if arch == "" {
        arch := c.arch;
      }
      found := Check(found, c.arch == arch, MixedArch(i));
    }
  }

  lemma JustifiedOneMore(classes: seq<RunnerClass>, n: nat, prefix: string, baked: bool, e: ClassError)
    requires n < |classes|
    ensures Justified(classes, n + 1, prefix, baked, e) <==>
      Justified(classes, n, prefix, baked, e)
      || (OfClass(e, n) && Wrong(classes[n], TooLong(classes[n], prefix), Repeated(Names(classes, prefix), n),
                                 baked && classes[n].arch != BakedArch(classes, n + 1), e))
  {}

  /** The reports are the justified complaints about the first n classes. */
  ghost predicate Reported(classes: seq<RunnerClass>, n: nat, prefix: string, baked: bool, errs: seq<ClassError>)
    requires n <= |classes|
  {
    forall e :: e in errs <==> Justified(classes, n, prefix, baked, e)
  }

  lemma ReportedOneMore(classes: seq<RunnerClass>, n: nat, prefix: string, baked: bool, errs: seq<ClassError>,
                        found: seq<ClassError>)
    requires n < |classes| && Reported(classes, n, prefix, baked, errs)
    requires forall e :: e in found <==>
      OfClass(e, n) && Wrong(classes[n], TooLong(classes[n], prefix), Repeated(Names(classes, prefix), n),
                             baked && classes[n].arch != BakedArch(classes, n + 1), e)
    ensures Reported(classes, n + 1, prefix, baked, errs + found)
  {
    forall e ensures e in errs + found <==> Justified(classes, n + 1, prefix, baked, e) {
      JustifiedOneMore(classes, n, prefix, baked, e);
    }
  }

  lemma {:induction false} FirstArch(classes: seq<RunnerClass>, n: nat)
    requires 1 <= n <= |classes| && classes[0].arch != ""
    ensures BakedArch(classes, n) == classes[0].arch
  {
    if n > 1 {
      FirstArch(classes, n - 1);
    }
  }

  lemma AcceptableUnjustified(classes: seq<RunnerClass>, prefix: string, baked: bool, e: ClassError)
    requires Acceptable(classes, prefix, baked)
    ensures !Justified(classes, |classes|, prefix, baked, e)
  {
    if !e.BadPrefix? && !e.NoClasses? && e.i < |classes| {
      assert GoodClass(classes[e.i], prefix) && GoodClass(classes[0], prefix);
      FirstArch(classes, e.i + 1);
    }
  }

  lemma NothingWrong(classes: seq<RunnerClass>, prefix: string, baked: bool, i: nat)
    requires i < |classes| && forall e :: !Justified(classes, |classes|, prefix, baked, e)
    ensures GoodClass(classes[i], prefix) && !Repeated(Names(classes, prefix), i)
    ensures baked ==> classes[i].arch == BakedArch(classes, i + 1)
  {
    var n := |classes|;
    assert !Justified(classes, n, prefix, baked, BadVcpus(i)) && !Justified(classes, n, prefix, baked, BadMemory(i));
    assert !Justified(classes, n, prefix, baked, BadDisk(i)) && !Justified(classes, n, prefix, baked, BadMax(i));
    assert !Justified(classes, n, prefix, baked, BadArch(i)) && !Justified(classes, n, prefix, baked, NameTooLong(i));
    assert !Justified(classes, n, prefix, baked, Duplicate(i)) && !Justified(classes, n, prefix, baked, MixedArch(i));
  }

  lemma AllRight(classes: seq<RunnerClass>, prefix: string, baked: bool)
    requires classes != [] && forall e :: !Justified(classes, |classes|, prefix, baked, e)
    ensures forall i :: 0 <= i < |classes| ==> GoodClass(classes[i], prefix)
    ensures var names := Names(classes, prefix); forall i, j :: 0 <= i < j < |names| ==> names[i] != names[j]
    ensures baked ==> forall i :: 0 <= i < |classes| ==> classes[i].arch == classes[0].arch
  {
    var names := Names(classes, prefix);
    NothingWrong(classes, prefix, baked, 0);
    forall i | 0 <= i < |classes|
      ensures GoodClass(classes[i], prefix) && (baked ==> classes[i].arch == classes[0].arch)
      ensures forall j :: 0 <= j < i ==> names[j] != names[i]
    {
      NothingWrong(classes, prefix, baked, i);
      FirstArch(classes, i + 1);
      assert forall j :: 0 <= j < i ==> names[j] == names[..i][j];
    }
  }

  /** There is nothing to report exactly if the configuration is acceptable. */
  lemma NothingJustified(classes: seq<RunnerClass>, prefix: string, baked: bool)
    ensures (forall e :: !Justified(classes, |classes|, prefix, baked, e)) <==> Acceptable(classes, prefix, baked)
  {
    if forall e :: !Justified(classes, |classes|, prefix, baked, e) {
      assert !Justified(classes, |classes|, prefix, baked, BadPrefix)
        && !Justified(classes, |classes|, prefix, baked, NoClasses);
      AllRight(classes, prefix, baked);
    } else if Acceptable(classes, prefix, baked) {
      var e :| Justified(classes, |classes|, prefix, baked, e);
      AcceptableUnjustified(classes, prefix, baked, e);
    }
  }

  lemma NothingReported(classes: seq<RunnerClass>, prefix: string, baked: bool, errs: seq<ClassError>)
    requires Reported(classes, |classes|, prefix, baked, errs)
    ensures errs == [] <==> Acceptable(classes, prefix, baked)
  {
    NothingJustified(classes, prefix, baked);
    assert errs != [] ==> errs[0] in errs;
  }

  lemma JustifiedBeforeLoop(classes: seq<RunnerClass>, prefix: string, baked: bool, valid: bool, e: ClassError)
    requires valid == ValidNamePrefix(prefix)
    ensures Justified(classes, 0, prefix, baked, e) <==> (!valid && e == BadPrefix) || (classes == [] && e == NoClasses)
  {}

  lemma JustifiedAtStart(classes: seq<RunnerClass>, prefix: string, baked: bool, valid: bool, errs: seq<ClassError>)
    requires valid == ValidNamePrefix(prefix)
    requires forall e :: e in errs <==> (!valid && e == BadPrefix) || (classes == [] && e == NoClasses)
    ensures Reported(classes, 0, prefix, baked, errs)
  {
    forall e ensures e in errs <==> Justified(classes, 0, prefix, baked, e) {
      JustifiedBeforeLoop(classes, prefix, baked, valid, e);
    }
  }

  /** What is checked before the loop. */
  method CheckTop(classes: seq<RunnerClass>, prefix: string, baked: bool) returns (errs: seq<ClassError>)
    ensures Reported(classes, 0, prefix, baked, errs)
  {
    var valid := ValidNamePrefix(prefix);
    errs := Check([], valid, BadPrefix);
    errs := Check(errs, |classes| > 0, NoClasses);
    JustifiedAtStart(classes, prefix, baked, valid, errs);
  }

  /** The loop over the classes, which adds to the reports there are. */
  method CheckClasses(classes: seq<RunnerClass>, prefix: string, baked: bool, before: seq<ClassError>)
      returns (errs: seq<ClassError>)
    requires Reported(classes, 0, prefix, baked, before)
    ensures Reported(classes, |classes|, prefix, baked, errs)
  {
    errs := before;
    var seen: set<string> := {};
    var bakedArch := "";
    ghost var names := Names(classes, prefix);
    for i := 0 to |classes|
      invariant Reported(classes, i, prefix, baked, errs)
      invariant seen == Elements(names[..i])
      invariant baked ==> bakedArch == BakedArch(classes, i)
    {
      OneMoreName(names, i);
      var found: seq<ClassError>;
      found, bakedArch := CheckClass(classes[i], i, prefix, baked, seen, bakedArch);
      assert names[i] in seen <==> Repeated(names, i);
      ReportedOneMore(classes, i, prefix, baked, errs, found);
      errs := errs + found;
      seen := seen + {ScaleSetName(classes[i], prefix)};
    }
  }

  /** The architecture of the i-th class differs from the first one named before it. */
  ghost predicate Differs(classes: seq<RunnerClass>, i: nat)
    requires i < |classes|
  {
    exists j :: 0 <= j < i && classes[j].arch != "" && classes[j].arch != classes[i].arch
           && forall l :: 0 <= l < j ==> classes[l].arch == ""
  }

  lemma {:induction false} BakedMeans(classes: seq<RunnerClass>, n: nat) returns (j: nat)
    requires n <= |classes|
    ensures var arch := BakedArch(classes, n);
            if arch == "" then forall l :: 0 <= l < n ==> classes[l].arch == ""
            else j < n && classes[j].arch == arch && forall l :: 0 <= l < j ==> classes[l].arch == ""
  {
    j := 0;
    if n > 0 {
      j := BakedMeans(classes, n - 1);
      if BakedArch(classes, n - 1) == "" {
        j := n - 1;
      }
    }
  }

  lemma DiffersMeans(classes: seq<RunnerClass>, i: nat)
    requires i < |classes|
    ensures classes[i].arch != BakedArch(classes, i + 1) <==> Differs(classes, i)
  {
    var j := BakedMeans(classes, i);
    if Differs(classes, i) {
      var l :| 0 <= l < i && classes[l].arch != "" && classes[l].arch != classes[i].arch
               && forall m :: 0 <= m < l ==> classes[m].arch == "";
      assert l == j;
    }
  }

  lemma RepeatedMeans(classes: seq<RunnerClass>, i: nat, prefix: string)
    requires i < |classes|
    ensures Repeated(Names(classes, prefix), i) <==> exists j :: 0 <= j < i && SameShape(classes[j], classes[i])
  {
    var names := Names(classes, prefix);
    forall j | 0 <= j < i ensures names[j] == names[i] <==> SameShape(classes[j], classes[i]) {
      ScaleSetNameInjective(classes[j], classes[i], prefix);
    }
    if Repeated(names, i) {
      var j :| 0 <= j < i && names[..i][j] == names[i];
      assert SameShape(classes[j], classes[i]);
    }
  }

  /** The reports about the i-th class, one by one. */
  ghost predicate Told(classes: seq<RunnerClass>, prefix: string, baked: bool, errs: seq<ClassError>, i: nat)
    requires i < |classes|
  {
    var c := classes[i];
    && (BadVcpus(i) in errs <==> c.vcpus <= 0)
    && (BadMemory(i) in errs <==> c.memoryGiB <= 0)
    && (BadDisk(i) in errs <==> c.diskGiB <= 0)
    && (BadMax(i) in errs <==> c.maxRunners <= 0)
    && (BadArch(i) in errs <==> c.arch != "amd64" && c.arch != "arm64")
  }

  ghost predicate ToldOfNames(classes: seq<RunnerClass>, prefix: string, baked: bool, errs: seq<ClassError>, i: nat)
    requires i < |classes|
  {
    var c := classes[i];
    && (NameTooLong(i) in errs <==> ByteLength(ScaleSetName(c, prefix)) > 54)
    && (Duplicate(i) in errs <==> exists j :: 0 <= j < i && SameShape(classes[j], c))
    && (MixedArch(i) in errs <==> baked && Differs(classes, i))
  }

  lemma ReportMeans(classes: seq<RunnerClass>, prefix: string, baked: bool, errs: seq<ClassError>, i: nat)
    requires Reported(classes, |classes|, prefix, baked, errs) && i < |classes|
    ensures Told(classes, prefix, baked, errs, i)
  {}

  lemma NameReportMeans(classes: seq<RunnerClass>, prefix: string, baked: bool, errs: seq<ClassError>, i: nat)
    requires Reported(classes, |classes|, prefix, baked, errs) && i < |classes|
    ensures ToldOfNames(classes, prefix, baked, errs, i)
  {
    RepeatedMeans(classes, i, prefix);
    DiffersMeans(classes, i);
    assert NameTooLong(i) in errs <==> Justified(classes, |classes|, prefix, baked, NameTooLong(i));
    assert Duplicate(i) in errs <==> Justified(classes, |classes|, prefix, baked, Duplicate(i));
    assert MixedArch(i) in errs <==> Justified(classes, |classes|, prefix, baked, MixedArch(i));
  }

  /** The class part of Validate reports every problem there is, and none that is not there. */
  method ValidateClasses(classes: seq<RunnerClass>, prefix: string, baked: bool) returns (errs: seq<ClassError>)
    ensures Reported(classes, |classes|, prefix, baked, errs)
    ensures errs == [] <==> Acceptable(classes, prefix, baked)
    ensures BadPrefix in errs <==> !ValidNamePrefix(prefix)
    ensures NoClasses in errs <==> classes == []
    ensures forall i :: 0 <= i < |classes| ==>
      Told(classes, prefix, baked, errs, i) && ToldOfNames(classes, prefix, baked, errs, i)
    ensures forall e :: e in errs && !e.BadPrefix? && !e.NoClasses? ==> e.i < |classes|
  {
    errs := CheckTop(classes, prefix, baked);
    errs := CheckClasses(classes, prefix, baked, errs);
    NothingReported(classes, prefix, baked, errs);
    forall i | 0 <= i < |classes|
      ensures Told(classes, prefix, baked, errs, i) && ToldOfNames(classes, prefix, baked, errs, i)
    {
      ReportMeans(classes, prefix, baked, errs, i);
      NameReportMeans(classes, prefix, baked, errs, i);
    }
  }

  // ----- validation spelled out -----

  lemma NameAscii(c: RunnerClass, prefix: string)
    requires ValidNamePrefix(prefix) && ValidArch(c.arch)
    ensures ByteLength(ScaleSetName(c, prefix)) == |ScaleSetName(c, prefix)|
  {
    DecimalsNumeric(c);
    assert Lower(c.arch) == c.arch;
    Ascii(ScaleSetName(c, prefix));
  }

  /** What a configuration is accepted for, in terms of what it says. */
  lemma AcceptableMeans(classes: seq<RunnerClass>, prefix: string, baked: bool)
    requires ValidNamePrefix(prefix)
    ensures Acceptable(classes, prefix, baked) <==>
      && classes != []
      && (forall i :: 0 <= i < |classes| ==>
            var c := classes[i];
            && c.vcpus > 0 && c.memoryGiB > 0 && c.diskGiB > 0 && c.maxRunners > 0
            && (c.arch == "amd64" || c.arch == "arm64") && |ScaleSetName(c, prefix)| <= 54)
      && (forall i, j :: 0 <= i < j < |classes| ==> !SameShape(classes[i], classes[j]))
      && (baked ==> forall i :: 0 <= i < |classes| ==> classes[i].arch == classes[0].arch)
  {
    forall i | 0 <= i < |classes| && ValidArch(classes[i].arch)
      ensures TooLong(classes[i], prefix) <==> |ScaleSetName(classes[i], prefix)| > 54
    {
      NameAscii(classes[i], prefix);
    }
    var names := Names(classes, prefix);
    forall i, j | 0 <= i < j < |classes|
      ensures names[i] == names[j] <==> SameShape(classes[i], classes[j])
    {
      ScaleSetNameInjective(classes[i], classes[j], prefix);
    }
  }

  // ----- identity -----

  /** What randomNameSuffix returns: eight hexadecimal digits. */
  predicate HexSuffix(s: string) {
    |s| == 8 && forall i :: 0 <= i < 8 ==> '0' <= s[i] <= '9' || 'a' <= s[i] <= 'f'
  }

  lemma WordIsClean(w: string)
    requires IsWord(w)
    ensures Clean(w)
  {}

  lemma Unit(number: string, unit: string, rest: string)
    ensures number + ((unit + "-") + rest) == (number + unit) + "-" + rest
  {}

  lemma ShapeWords(c: RunnerClass)
    requires c.vcpus > 0 && c.memoryGiB > 0 && c.diskGiB > 0
    ensures Shape(c) == (DecimalNat(c.vcpus) + "vcpu") + "-" + ((DecimalNat(c.memoryGiB) + "gb") + "-"
                        + ((DecimalNat(c.diskGiB) + "gb") + "-" + Lower(c.arch)))
  {
    Unit(DecimalNat(c.diskGiB), "gb", Lower(c.arch));
    Unit(DecimalNat(c.memoryGiB), "gb", (DecimalNat(c.diskGiB) + "gb") + "-" + Lower(c.arch));
    Unit(DecimalNat(c.vcpus), "vcpu",
         (DecimalNat(c.memoryGiB) + "gb") + "-" + ((DecimalNat(c.diskGiB) + "gb") + "-" + Lower(c.arch)));
    assert "vcpu" + "-" == "vcpu-" && "gb" + "-" == "gb-";
  }

  lemma ShapeClean(c: RunnerClass)
    requires c.vcpus > 0 && c.memoryGiB > 0 && c.diskGiB > 0 && ValidArch(c.arch)
    ensures Clean(Shape(c)) && Shape(c) != ""
  {
    var v, m, d := DecimalNat(c.vcpus) + "vcpu", DecimalNat(c.memoryGiB) + "gb", DecimalNat(c.diskGiB) + "gb";
    DecimalDigits(c.vcpus);
    DecimalDigits(c.memoryGiB);
    DecimalDigits(c.diskGiB);
    assert IsWord(v) && IsWord(m) && IsWord(d);
    assert Lower(c.arch) == c.arch && IsWord(c.arch);
    Joined(d, c.arch);
    Joined(m, d + "-" + c.arch);
    Joined(v, m + "-" + (d + "-" + c.arch));
    ShapeWords(c);
  }

  lemma {:induction false} DashedShorter(s: string)
    ensures |Dashed(s)| <= |s|
  {
    if s != "" {
      DashedShorter(s[..|s| - 1]);
    }
  }

  lemma SanitizedShorter(value: string)
    ensures |Sanitized(value)| <= |value|
  {
    TrimmedIsJoin(Lower(value));
    DashedShorter(Lower(value));
    TrimLeftLength(Dashed(Lower(value)));
    TrimRightLength(TrimLeft(Dashed(Lower(value))));
  }

  lemma LetterSurvives(prefix: string)
    requires ValidNamePrefix(prefix)
    ensures Sanitized(prefix) != ""
  {
    var l := Lower(prefix);
    assert Alnum(l[|l| - 1]);
    DashedEnd(l);
    WordsClean(l);
    JoinClean(Words(l));
  }

  /** The 54-character cap leaves room for a dash and a suffix, so nothing is ever cut off, and sanitizing
      acts on the prefix alone. */
  lemma RunnerNameParts(c: RunnerClass, prefix: string, suffix: string)
    requires ValidNamePrefix(prefix) && GoodClass(c, prefix) && HexSuffix(suffix)
    ensures MakeRunnerName(ScaleSetName(c, prefix), suffix) == Some(Sanitized(prefix) + "-" + Shape(c) + "-" + suffix)
    ensures Accepted(MakeRunnerName(ScaleSetName(c, prefix), suffix))
  {
    ShapeClean(c);
    CleanFixed(Shape(c));
    LetterSurvives(prefix);
    SanitizedJoin(prefix, Shape(c));
    SanitizedShorter(ScaleSetName(c, prefix));
    ByteLengthBounds(ScaleSetName(c, prefix));
    WordIsClean(suffix);
    CleanFixed(suffix);
    var s := Sanitized(ScaleSetName(c, prefix));
    SanitizedIsClean(ScaleSetName(c, prefix));
    TrimParts(s, suffix);
    Joined(s, suffix);
  }

  lemma SameEnds(u: string, x: string, v: string, y: string)
    requires u + "-" + x == v + "-" + y && |x| == |y|
    ensures u == v && x == y
  {
    Concatenated(u, "-" + x);
    Concatenated(v, "-" + y);
    assert u + "-" + x == u + ("-" + x) && v + "-" + y == v + ("-" + y);
    SameTail("-", x, y);
  }

  /** In a configuration that validation accepts, runner names of two classes never coincide, whatever
      their suffixes; and within a class they coincide only if the suffixes do. */
  lemma RunnerNamesApart(classes: seq<RunnerClass>, prefix: string, baked: bool, i: nat, j: nat, x: string, y: string)
    requires Acceptable(classes, prefix, baked) && i < |classes| && j < |classes| && HexSuffix(x) && HexSuffix(y)
    ensures MakeRunnerName(ScaleSetName(classes[i], prefix), x) == MakeRunnerName(ScaleSetName(classes[j], prefix), y)
      <==> i == j && x == y
  {
    var p, a, b := Sanitized(prefix), Shape(classes[i]), Shape(classes[j]);
    RunnerNameParts(classes[i], prefix, x);
    RunnerNameParts(classes[j], prefix, y);
    if p + "-" + a + "-" + x == p + "-" + b + "-" + y {
      SameEnds(p + "-" + a, x, p + "-" + b, y);
      SameTail(p + "-", a, b);
      assert Names(classes, prefix)[i] == Names(classes, prefix)[j];
    }
  }
}
