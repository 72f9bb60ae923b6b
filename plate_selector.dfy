/**
 * Candidate selection: from the OCR detections of one image, pick the text
 * most likely to be the licence plate.
 *
 * The OCR engine is not modelled: its detections arrive as an input sequence,
 * and the bounding box of each detection is dropped because the selection
 * never looks at it.
 *
 * The loop is modelled as the source writes it. It keeps a detection only when
 * its cleaned text is NOT purely letters and digits, and it returns at once
 * while no candidate has been recorded. SelectPlate states that behaviour in
 * closed form, over the detections with their texts cleaned (CleanAll).
 * SelectPlateIntended is the variant that takes the best well-formed detection
 * over the whole sequence.
 */
module PlateSelector {
  import opened PlateText

  datatype Option<T> = None | Some(value: T)

  /** One OCR detection: its text and its confidence. */
  datatype Detection = Detection(text: string, confidence: real)

  /** The selector's answer: `{"plate": ..., "confidence": ...}`. */
  datatype Candidate = Candidate(plate: Option<string>, confidence: real)

  const MinPlateLength := 6
  const NonPlateWords: seq<string> := ["BRASIL", "BR"]

  /** The detections with each text cleaned, as the loop cleans it before looking at it. */
  function CleanAll(ds: seq<Detection>): seq<Detection>
  {
    seq(|ds|, i requires 0 <= i < |ds| => Detection(Normalize(ds[i].text), ds[i].confidence))
  }

  /** A cleaned text that passes the filter: at least 6 characters and not a known banner word. */
  predicate Survives(t: string) {
    !(|t| < MinPlateLength || t in NonPlateWords)
  }

  /** A cleaned detection that the confidence comparison considers, for one choice of character class. */
  predicate Competes(c: Detection, alnum: bool) {
    Survives(c.text) && MatchesPlatePattern(c.text) == alnum
  }

  /**
   * The running-best scan with no early return: a cleaned detection that
   * competes replaces the current best only when its confidence is strictly
   * greater.
   */
  function KeepBest(cs: seq<Detection>, alnum: bool, best: Option<string>, bestConf: real): Candidate
  {
    if cs == [] then Candidate(best, bestConf)
    else if Competes(cs[0], alnum) && cs[0].confidence > bestConf then
      KeepBest(cs[1..], alnum, Some(cs[0].text), cs[0].confidence)
    else
      KeepBest(cs[1..], alnum, best, bestConf)
  }

  /**
   * What the selection loop returns, in closed form, over cleaned detections.
   * Detections that fail the filter are skipped. The first one that passes is
   * returned at once if its text is purely letters and digits or its
   * confidence is not above 0.0. Otherwise it becomes the best candidate, and
   * the rest of the sequence is a running maximum over texts that are NOT
   * purely letters and digits.
   */
  function SelectCleaned(cs: seq<Detection>): Candidate
  {
    if cs == [] then Candidate(None, 0.0)
    else if !Survives(cs[0].text) then SelectCleaned(cs[1..])
    else if MatchesPlatePattern(cs[0].text) || cs[0].confidence <= 0.0 then
      Candidate(Some(cs[0].text), cs[0].confidence)
    else
      KeepBest(cs[1..], false, Some(cs[0].text), cs[0].confidence)
  }

  /** What get_plate_info returns for the detections of one image. */
  function SelectPlate(ds: seq<Detection>): Candidate
  {
    SelectCleaned(CleanAll(ds))
  }

  /** The selection loop of get_plate_info, over the detections the OCR engine produced. */
  method GetPlateInfo(results: seq<Detection>) returns (r: Candidate)
    ensures r == SelectPlate(results)
  {
    ghost var cs := CleanAll(results);
    var bestPlate: Option<string> := None;
    var bestConfidence := 0.0;
    var i := 0;
    while i < |results|
      invariant 0 <= i <= |results|
      invariant bestPlate.None? ==> bestConfidence == 0.0 && SelectCleaned(cs[i..]) == SelectPlate(results)
      invariant bestPlate.Some? ==> 0.0 < bestConfidence && KeepBest(cs[i..], false, bestPlate, bestConfidence) == SelectPlate(results)
    {
      assert cs[i..][0] == cs[i] && cs[i..][1..] == cs[i + 1..];
      var text := Normalize(results[i].text);
      var confidence := results[i].confidence;
      assert cs[i] == Detection(text, confidence);
      if |text| < MinPlateLength || text in NonPlateWords {
        i := i + 1;
        continue;
      }
      // The source's `if text:` guard always holds here: the text has at least 6 characters.
      OnlyLettersNumbersOfNormalised(results[i].text);
      NormalizeIdempotent(results[i].text);
      if !OnlyLettersNumbers(text) {
        if confidence > bestConfidence {
          bestConfidence := confidence;
          bestPlate := Some(text);
        }
      }
      if bestPlate.None? {
        return Candidate(Some(text), confidence);
      }
      i := i + 1;
    }
    r := Candidate(bestPlate, bestConfidence);
  }

  /**
   * The running-best scan ends with the first detection of maximal confidence
   * among those that compete and beat the starting confidence, or with the
   * starting candidate when none beats it.
   */
  lemma {:induction false} KeepBestIsFirstMaximum(cs: seq<Detection>, alnum: bool, best: Option<string>, bestConf: real)
    ensures var r := KeepBest(cs, alnum, best, bestConf);
      && bestConf <= r.confidence
      && (forall i :: 0 <= i < |cs| && Competes(cs[i], alnum) ==> cs[i].confidence <= r.confidence)
      && (|| r == Candidate(best, bestConf)
          || exists j :: && 0 <= j < |cs| && Competes(cs[j], alnum) && bestConf < cs[j].confidence
                         && r == Candidate(Some(cs[j].text), cs[j].confidence)
                         && forall i :: 0 <= i < j && Competes(cs[i], alnum) ==> cs[i].confidence < cs[j].confidence)
  {
    if cs != [] {
      var d := cs[0];
      var tail := cs[1..];
      var upd := Competes(d, alnum) && d.confidence > bestConf;
      var best' := if upd then Some(d.text) else best;
      var conf' := if upd then d.confidence else bestConf;
      KeepBestIsFirstMaximum(tail, alnum, best', conf');
      var r := KeepBest(cs, alnum, best, bestConf);
      assert r == KeepBest(tail, alnum, best', conf');
      forall i | 0 <= i < |cs| && Competes(cs[i], alnum)
        ensures cs[i].confidence <= r.confidence
      {
        if i > 0 {
          assert cs[i] == tail[i - 1];
        }
      }
      if r != Candidate(best', conf') {
        var j' :| && 0 <= j' < |tail| && Competes(tail[j'], alnum) && conf' < tail[j'].confidence
                  && r == Candidate(Some(tail[j'].text), tail[j'].confidence)
                  && forall i :: 0 <= i < j' && Competes(tail[i], alnum) ==> tail[i].confidence < tail[j'].confidence;
        var j := j' + 1;
        assert cs[j] == tail[j'];
        forall i | 0 <= i < j && Competes(cs[i], alnum)
          ensures cs[i].confidence < cs[j].confidence
        {
          if i > 0 {
            assert cs[i] == tail[i - 1];
          }
        }
      } else if upd {
        assert r == Candidate(Some(cs[0].text), cs[0].confidence);
      }
    }
  }

  /** Detections that fail the filter ahead of position k do not affect the result. */
  lemma {:induction false} SelectCleanedSkips(cs: seq<Detection>, k: nat)
    requires k <= |cs|
    requires forall i :: 0 <= i < k ==> !Survives(cs[i].text)
    ensures SelectCleaned(cs) == SelectCleaned(cs[k..])
  {
    if k > 0 {
      assert cs[1..][k - 1..] == cs[k..];
      SelectCleanedSkips(cs[1..], k - 1);
    }
  }

  /**
   * The plate is None exactly when no detection passes the filter (an empty
   * input included), and then the confidence is 0.0. Otherwise the plate is the
   * cleaned text of some detection that passes the filter, reported with that
   * detection's confidence.
   */
  lemma {:induction false} SelectCleanedFromInput(cs: seq<Detection>)
    ensures var r := SelectCleaned(cs);
      && (r.plate.None? <==> forall i :: 0 <= i < |cs| ==> !Survives(cs[i].text))
      && (r.plate.None? ==> r.confidence == 0.0)
      && (r.plate.Some? ==> exists i :: && 0 <= i < |cs| && Survives(cs[i].text)
                                        && r == Candidate(Some(cs[i].text), cs[i].confidence))
  {
    if cs != [] {
      var r := SelectCleaned(cs);
      var tail := cs[1..];
      if !Survives(cs[0].text) {
        SelectCleanedFromInput(tail);
        if r.plate.Some? {
          var i :| && 0 <= i < |tail| && Survives(tail[i].text)
                   && r == Candidate(Some(tail[i].text), tail[i].confidence);
          assert cs[i + 1] == tail[i];
        } else {
          forall i | 0 <= i < |cs| ensures !Survives(cs[i].text) {
            if i > 0 {
              assert cs[i] == tail[i - 1];
            }
          }
        }
      } else if !MatchesPlatePattern(cs[0].text) && 0.0 < cs[0].confidence {
        KeepBestIsFirstMaximum(tail, false, Some(cs[0].text), cs[0].confidence);
        if r != Candidate(Some(cs[0].text), cs[0].confidence) {
          var j :| && 0 <= j < |tail| && Competes(tail[j], false)
                   && r == Candidate(Some(tail[j].text), tail[j].confidence);
          assert cs[j + 1] == tail[j];
        }
      }
    }
  }

  /**
   * The selector never returns a text shorter than 6 characters or a banner
   * word; it returns None, with confidence 0.0, exactly when no detection's
   * cleaned text passes that filter; and a plate it returns is the cleaned text
   * of one of its input detections, with that detection's confidence.
   */
  lemma SelectPlateFromInput(ds: seq<Detection>)
    ensures var r := SelectPlate(ds);
      && (r.plate.None? <==> forall i :: 0 <= i < |ds| ==> !Survives(Normalize(ds[i].text)))
      && (r.plate.None? ==> r.confidence == 0.0)
      && (r.plate.Some? ==> && Survives(r.plate.value)
                            && exists i :: && 0 <= i < |ds|
                                           && r == Candidate(Some(Normalize(ds[i].text)), ds[i].confidence))
  {
    var cs := CleanAll(ds);
    SelectCleanedFromInput(cs);
    assert forall i :: 0 <= i < |ds| ==> cs[i] == Detection(Normalize(ds[i].text), ds[i].confidence);
  }

  /**
   * When the first cleaned detection k that passes the filter is purely
   * letters and digits, or its confidence is not above 0.0, the loop returns it
   * at once.
   */
  lemma SelectCleanedEarlyReturn(cs: seq<Detection>, k: nat)
    requires k < |cs|
    requires forall i :: 0 <= i < k ==> !Survives(cs[i].text)
    requires Survives(cs[k].text)
    requires MatchesPlatePattern(cs[k].text) || cs[k].confidence <= 0.0
    ensures SelectCleaned(cs) == Candidate(Some(cs[k].text), cs[k].confidence)
  {
    SelectCleanedSkips(cs, k);
    assert cs[k..][0] == cs[k];
  }

  /**
   * When the first cleaned detection k that passes the filter is NOT purely
   * letters and digits and has a positive confidence, the selection is the
   * running-best scan over the whole sequence: the detections before k do not
   * compete, and k itself beats the initial 0.0.
   */
  lemma {:induction false} SelectCleanedAsKeepBest(cs: seq<Detection>, k: nat)
    requires k < |cs|
    requires forall i :: 0 <= i < k ==> !Survives(cs[i].text)
    requires Survives(cs[k].text)
    requires !MatchesPlatePattern(cs[k].text) && 0.0 < cs[k].confidence
    ensures SelectCleaned(cs) == KeepBest(cs, false, None, 0.0)
  {
    if k > 0 {
      assert !Survives(cs[0].text);
      SelectCleanedAsKeepBest(cs[1..], k - 1);
    }
  }

  /**
   * Otherwise the first cleaned detection k that passes the filter is
   * recorded, and the result is the first detection of maximal confidence
   * among those that pass the filter and are NOT purely letters and digits: on
   * ties the earlier one wins.
   */
  lemma SelectCleanedRunningBest(cs: seq<Detection>, k: nat)
    requires k < |cs|
    requires forall i :: 0 <= i < k ==> !Survives(cs[i].text)
    requires Survives(cs[k].text)
    requires !MatchesPlatePattern(cs[k].text) && 0.0 < cs[k].confidence
    ensures exists j :: && k <= j < |cs| && Competes(cs[j], false)
                        && SelectCleaned(cs) == Candidate(Some(cs[j].text), cs[j].confidence)
                        && (forall i :: 0 <= i < |cs| && Competes(cs[i], false) ==> cs[i].confidence <= cs[j].confidence)
                        && (forall i :: 0 <= i < j && Competes(cs[i], false) ==> cs[i].confidence < cs[j].confidence)
  {
    SelectCleanedAsKeepBest(cs, k);
    KeepBestIsFirstMaximum(cs, false, None, 0.0);
    assert Competes(cs[k], false);
  }

  /**
   * One pass of the loop body while a candidate is held. The recorded
   * confidence never decreases, and the record changes only for a text that is
   * NOT purely letters and digits with a strictly greater confidence; on a tie
   * the earlier detection stays.
   */
  lemma RecordChangesOnlyUpward(cs: seq<Detection>, best: string, bestConf: real)
    requires cs != []
    ensures var r := KeepBest(cs, false, Some(best), bestConf);
      || r == KeepBest(cs[1..], false, Some(best), bestConf)
      || (&& Competes(cs[0], false) && bestConf < cs[0].confidence
          && r == KeepBest(cs[1..], false, Some(cs[0].text), cs[0].confidence))
    ensures cs[0].confidence <= bestConf ==>
      KeepBest(cs, false, Some(best), bestConf) == KeepBest(cs[1..], false, Some(best), bestConf)
    ensures bestConf <= KeepBest(cs, false, Some(best), bestConf).confidence
  {
    KeepBestIsFirstMaximum(cs, false, Some(best), bestConf);
  }

  /**
   * The evidently intended selection over cleaned detections: among those that
   * pass the filter and ARE purely letters and digits, the first one of
   * greatest confidence above 0.0, scanning the whole sequence.
   */
  function BestWellFormed(cs: seq<Detection>): Candidate
  {
    KeepBest(cs, true, None, 0.0)
  }

  /** The evidently intended get_plate_info: the loop with the class test un-inverted and no early return. */
  function SelectPlateIntended(ds: seq<Detection>): Candidate
  {
    BestWellFormed(CleanAll(ds))
  }

  /**
   * The intended selection returns a well-formed plate whenever some
   * well-formed detection has a positive confidence, and that plate has the
   * greatest confidence of them all, the earliest winning ties.
   */
  lemma BestWellFormedIsFirstMaximum(cs: seq<Detection>)
    ensures var r := BestWellFormed(cs);
      && (r.plate.None? <==> forall i :: 0 <= i < |cs| && Competes(cs[i], true) ==> cs[i].confidence <= 0.0)
      && (r.plate.None? ==> r.confidence == 0.0)
      && (r.plate.Some? ==>
            && MatchesPlatePattern(r.plate.value)
            && exists j :: && 0 <= j < |cs| && Competes(cs[j], true)
                           && r == Candidate(Some(cs[j].text), cs[j].confidence)
                           && (forall i :: 0 <= i < |cs| && Competes(cs[i], true) ==> cs[i].confidence <= cs[j].confidence)
                           && (forall i :: 0 <= i < j && Competes(cs[i], true) ==> cs[i].confidence < cs[j].confidence))
  {
    KeepBestIsFirstMaximum(cs, true, None, 0.0);
  }

  /** Cleaning leaves detections whose texts are already clean unchanged. */
  lemma CleanAllOfClean(ds: seq<Detection>)
    requires forall i :: 0 <= i < |ds| ==> IsNormalised(ds[i].text)
    ensures CleanAll(ds) == ds
  {
    forall i | 0 <= i < |ds| ensures CleanAll(ds)[i] == ds[i] {
      NormalizeFixpoint(ds[i].text);
    }
  }

  /**
   * The early return: a well-formed plate read first, with the lower
   * confidence, is returned at once, where the intended selection takes the
   * later plate of higher confidence.
   */
  lemma SelectPlateReturnsEarly()
    ensures var ds := [Detection("ABC1D23", 0.5), Detection("XYZ9K88", 0.9)];
      && SelectPlate(ds) == Candidate(Some("ABC1D23"), 0.5)
      && SelectPlateIntended(ds) == Candidate(Some("XYZ9K88"), 0.9)
  {
    var ds := [Detection("ABC1D23", 0.5), Detection("XYZ9K88", 0.9)];
    assert CleanAll(ds) == ds by {
      assert IsNormalised("ABC1D23") && IsNormalised("XYZ9K88");
      CleanAllOfClean(ds);
    }
    TwoWellFormedPlates();
  }

  /** The same two detections, already clean: the loop and the intended scan part ways. */
  lemma TwoWellFormedPlates()
    ensures var ds := [Detection("ABC1D23", 0.5), Detection("XYZ9K88", 0.9)];
      && SelectCleaned(ds) == Candidate(Some("ABC1D23"), 0.5)
      && BestWellFormed(ds) == Candidate(Some("XYZ9K88"), 0.9)
  {
    var ds := [Detection("ABC1D23", 0.5), Detection("XYZ9K88", 0.9)];
    assert Competes(ds[0], true) && Competes(ds[1], true) by {
      assert MatchesPlatePattern("ABC1D23") && MatchesPlatePattern("XYZ9K88");
      assert Survives("ABC1D23") && Survives("XYZ9K88");
    }
    assert ds[1..] == [Detection("XYZ9K88", 0.9)];
    assert KeepBest(ds, true, None, 0.0) == KeepBest(ds[1..], true, Some("ABC1D23"), 0.5);
    assert KeepBest(ds[1..], true, Some("ABC1D23"), 0.5) == KeepBest(ds[1..][1..], true, Some("XYZ9K88"), 0.9);
    assert ds[1..][1..] == [];
  }

  /**
   * The inverted class test: a fragment with a stray '.' read first beats a
   * well-formed plate of higher confidence, which the intended selection takes.
   */
  lemma SelectPlatePrefersMalformed()
    ensures var ds := [Detection("AB.C1D23", 0.9), Detection("ABC1D23", 0.95)];
      && SelectPlate(ds) == Candidate(Some("AB.C1D23"), 0.9)
      && SelectPlateIntended(ds) == Candidate(Some("ABC1D23"), 0.95)
  {
    assert IsNormalised("ABC1D23") && IsNormalised("AB.C1D23");
    assert MatchesPlatePattern("ABC1D23");
    assert !MatchesPlatePattern("AB.C1D23") by {
      assert "AB.C1D23"[2] == '.';
    }
    assert Survives("ABC1D23") && Survives("AB.C1D23");
    var es := [Detection("AB.C1D23", 0.9), Detection("ABC1D23", 0.95)];
    CleanAllOfClean(es);
    assert es[1..] == [Detection("ABC1D23", 0.95)];
    assert KeepBest(es, true, None, 0.0) == KeepBest(es[1..], true, None, 0.0);
  }

  /** Banner words and short fragments are skipped: only the 7-character plate remains. */
  lemma SelectPlateFiltersBanners()
    ensures SelectPlate([Detection("BRASIL", 0.9), Detection("AB", 0.95), Detection("ABC1D23", 0.8)])
            == Candidate(Some("ABC1D23"), 0.8)
  {
    var ds := [Detection("BRASIL", 0.9), Detection("AB", 0.95), Detection("ABC1D23", 0.8)];
    assert IsNormalised("BRASIL") && IsNormalised("AB") && IsNormalised("ABC1D23");
    CleanAllOfClean(ds);
    assert !Survives("BRASIL") && !Survives("AB") && Survives("ABC1D23");
    assert MatchesPlatePattern("ABC1D23");
    SelectCleanedEarlyReturn(ds, 2);
  }
}
