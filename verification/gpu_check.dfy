/**
 The notebook GPU check: pull the device name out of the GPU query tool's
 console output, then classify it against a list of compatible devices.
 The console output is a parameter; running the tool is not modelled.
 */
module GpuCheck {
  import opened Outcomes
  import opened PyText

  /** The device the check rejects with its own error. */
  const TeslaK80: string := "Tesla K80"

  /** The list the script's entry point checks against. The query tool
      abbreviates long device names, hence the trailing dots. */
  const KnownGpus: seq<string> := ["Tesla T4", "Tesla P100-PCIE..."]

  /** Index of the console line that holds the device name. */
  const NameLine: nat := 7

  /** The device name from the query tool's output lines: words 2 and 3 of
      line 7, joined by one space. Output with no line 7 (no GPU, or the tool
      missing) is the "NO GPU DETECTED" error; a short line 7 is not an error
      and yields whatever of those two words exist. */
  function PullGpuId(lines: seq<string>): (r: Result<string, Verdict<string>>)
    ensures r.Failure? <==> |lines| <= NameLine
    ensures r.Failure? ==> r.error == NoGpu
    ensures r.Success? ==> Split(r.value) == Slice(Split(lines[NameLine]), 2, 4)
    ensures r.Success? ==> (r.value == "" <==> |Split(lines[NameLine])| <= 2)
    ensures r.Success? && |Split(lines[NameLine])| >= 4 ==>
              r.value == Split(lines[NameLine])[2] + " " + Split(lines[NameLine])[3]
    ensures r.Success? && |Split(lines[NameLine])| == 3 ==> r.value == Split(lines[NameLine])[2]
  {
    if |lines| <= NameLine then Failure(NoGpu)
    else
      var words := Split(lines[NameLine]);
      var kept := Slice(words, 2, 4);
      SplitJoin(kept);
      assert |words| == 3 ==> kept == [words[2]];
      Success(Join(" ", kept))
  }

  /** The loop over the compatible list: true when some entry equals `gpu`. */
  function ScanForMatch(gpus: seq<string>, gpu: string): (found: bool)
    ensures found <==> gpu in gpus
  {
    if gpus == [] then false
    else if gpus[0] == gpu then true
    else ScanForMatch(gpus[1..], gpu)
  }

  /** Classify a device name. The K80 error comes first, whatever the list
      holds; otherwise success exactly when the name equals a list entry,
      and the "unknown allocation" error naming the device when it does not. */
  function ColabGpuCheck(gpu: string, compatible: seq<string>): (v: Verdict<string>)
    ensures gpu == TeslaK80 ==> v == K80Allocated
    ensures gpu != TeslaK80 ==> (v == Compatible <==> gpu in compatible)
    ensures gpu != TeslaK80 && gpu !in compatible ==> v == Unknown(gpu)
    ensures v != NoGpu && !v.UndefinedName?
  {
    if gpu == TeslaK80 then K80Allocated
    else if ScanForMatch(compatible, gpu) then Compatible
    else Unknown(gpu)
  }

  /** The script's entry point: query, then classify against `KnownGpus`.
      The outcome is decided by words 2 and 3 of line 7 alone. */
  function CheckInstance(lines: seq<string>): (v: Verdict<string>)
    ensures v == NoGpu <==> |lines| <= NameLine
    ensures v == Compatible <==>
              |lines| > NameLine &&
              Slice(Split(lines[NameLine]), 2, 4) in {["Tesla", "T4"], ["Tesla", "P100-PCIE..."]}
    ensures v == K80Allocated <==>
              |lines| > NameLine && Slice(Split(lines[NameLine]), 2, 4) == ["Tesla", "K80"]
    ensures v.Unknown? ==> v.name == Join(" ", Slice(Split(lines[NameLine]), 2, 4))
    ensures v.Unknown? ==> Split(v.name) == Slice(Split(lines[NameLine]), 2, 4)
    ensures !v.UndefinedName?
  {
    match PullGpuId(lines)
    case Failure(e) => e
    case Success(name) =>
      KnownNamesByWords(name, Slice(Split(lines[NameLine]), 2, 4));
      ColabGpuCheck(name, KnownGpus)
  }

  /** A name is decided by its words: it equals the two-word name
      `known`, spelt `a b`, exactly when its words are `a` and `b`. */
  lemma NameMatchesWords(name: string, words: seq<string>, known: string, a: string, b: string)
    requires Split(name) == words && name == Join(" ", words)
    requires IsToken(a) && IsToken(b) && known == a + " " + b
    ensures name == known <==> words == [a, b]
  {
    assert [a, b][1..] == [b];
    SplitJoin([a, b]);
  }

  /** The names `CheckInstance` tells apart, stated through their words. */
  lemma KnownNamesByWords(name: string, words: seq<string>)
    requires Split(name) == words && name == Join(" ", words)
    ensures name in KnownGpus <==> words in {["Tesla", "T4"], ["Tesla", "P100-PCIE..."]}
    ensures name == TeslaK80 <==> words == ["Tesla", "K80"]
  {
    NameMatchesWords(name, words, KnownGpus[0], "Tesla", "T4");
    NameMatchesWords(name, words, KnownGpus[1], "Tesla", "P100-PCIE...");
    NameMatchesWords(name, words, TeslaK80, "Tesla", "K80");
  }

  /** Only which names the list holds matters: two lists with the same
      members (in any order, with any repetition) give the same verdict. */
  lemma SameMembersSameVerdict(gpu: string, a: seq<string>, b: seq<string>)
    requires forall g :: g in a <==> g in b
    ensures ColabGpuCheck(gpu, a) == ColabGpuCheck(gpu, b)
  {
  }

  /** Reordering the list does not change the verdict. */
  lemma ReorderSameVerdict(gpu: string, a: seq<string>, b: seq<string>)
    requires multiset(a) == multiset(b)
    ensures ColabGpuCheck(gpu, a) == ColabGpuCheck(gpu, b)
  {
    forall g
      ensures g in a <==> g in b
    {
      assert g in a <==> g in multiset(a);
      assert g in b <==> g in multiset(b);
    }
    SameMembersSameVerdict(gpu, a, b);
  }

  /** Repeating an entry of the list does not change the verdict. */
  lemma DuplicateSameVerdict(gpu: string, a: seq<string>, i: nat)
    requires i < |a|
    ensures ColabGpuCheck(gpu, a + [a[i]]) == ColabGpuCheck(gpu, a)
  {
    SameMembersSameVerdict(gpu, a + [a[i]], a);
  }

  /** With an empty list nothing is compatible: every name raises. */
  lemma EmptyListAlwaysRaises(gpu: string)
    ensures ColabGpuCheck(gpu, []).Raised()
  {
  }

  /** The columns of the query tool's device row for a Tesla device:
      GPU index, model, persistence mode, bus id, display active and
      uncorrected ECC count, as in
      `|   0  Tesla T4            Off  | 00000000:00:04.0 Off |   0 |`. */
  datatype DeviceRow = DeviceRow(
    gpu: string, model: string, persistence: string,
    busId: string, display: string, ecc: string)
  {
    /** Every column holds one word. */
    predicate Valid() {
      IsToken(gpu) && IsToken(model) && IsToken(persistence) &&
      IsToken(busId) && IsToken(display) && IsToken(ecc)
    }
  }

  /** The row's eleven words: the column values, `Tesla` before the model,
      and the bar characters that delimit the column groups. */
  function DeviceRowWords(row: DeviceRow): seq<string> {
    ["|", row.gpu, "Tesla", row.model, row.persistence, "|",
     row.busId, row.display, "|", row.ecc, "|"]
  }

  /** A device row, however its columns are padded, has `Tesla` and the
      model as words 2 and 3. */
  lemma DeviceRowNameWords(line: string, row: DeviceRow, gaps: seq<string>)
    requires row.Valid() && |gaps| == 10
    requires forall i :: 0 <= i < |gaps| ==> IsGap(gaps[i])
    requires line == PadJoin(DeviceRowWords(row), gaps)
    ensures Slice(Split(line), 2, 4) == ["Tesla", row.model]
  {
    var words := DeviceRowWords(row);
    assert AllTokens(words) by {
      assert IsToken("|") && IsToken("Tesla");
    }
    SplitPadJoin(words, gaps);
    assert Slice(words, 2, 4) == ["Tesla", row.model];
  }

  /** The entry point on any device row, however its columns are padded: a
      T4 or an abbreviated P100 passes, a K80 gets the K80 error, and any
      other model is unknown under its full name. */
  lemma DeviceRowVerdict(lines: seq<string>, row: DeviceRow, gaps: seq<string>)
    requires |lines| > NameLine && row.Valid() && |gaps| == 10
    requires forall i :: 0 <= i < |gaps| ==> IsGap(gaps[i])
    requires lines[NameLine] == PadJoin(DeviceRowWords(row), gaps)
    ensures row.model == "T4" ==> CheckInstance(lines) == Compatible
    ensures row.model == "P100-PCIE..." ==> CheckInstance(lines) == Compatible
    ensures row.model == "K80" ==> CheckInstance(lines) == K80Allocated
    ensures row.model !in {"T4", "P100-PCIE...", "K80"} ==>
              CheckInstance(lines) == Unknown("Tesla " + row.model)
  {
    DeviceRowNameWords(lines[NameLine], row, gaps);
    VerdictOfModel(lines, row.model);
  }

  /** The entry point's verdict once words 2 and 3 of line 7 are known to be
      `Tesla` and `model`. */
  lemma VerdictOfModel(lines: seq<string>, model: string)
    requires |lines| > NameLine && IsToken(model)
    requires Slice(Split(lines[NameLine]), 2, 4) == ["Tesla", model]
    ensures model == "T4" ==> CheckInstance(lines) == Compatible
    ensures model == "P100-PCIE..." ==> CheckInstance(lines) == Compatible
    ensures model == "K80" ==> CheckInstance(lines) == K80Allocated
    ensures model !in {"T4", "P100-PCIE...", "K80"} ==>
              CheckInstance(lines) == Unknown("Tesla " + model)
  {
    assert Join(" ", ["Tesla", model]) == "Tesla " + model;
  }

  /** A line 7 with only three words is not an error: the name is the one
      word that exists at index 2. */
  lemma ShortLineYieldsPartialName(lines: seq<string>)
    requires |lines| > NameLine && |Split(lines[NameLine])| == 3
    ensures PullGpuId(lines) == Success(Split(lines[NameLine])[2])
  {
  }
}
