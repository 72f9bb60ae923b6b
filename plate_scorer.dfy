/**
 * Confusion-aware similarity between the expected plate and the plate the OCR
 * read (distancia_ponderada).
 *
 * Both plates must have the regional length of 7 characters. The score starts
 * at a base of 70 and each position adds a bonus or a penalty: an exact match
 * earns +5 when the previous position also matched, a typical OCR confusion
 * costs 3, a letter read as a non-letter (or the reverse) costs 10, and any
 * other wrong character costs 5. The similarity is the score over 100, clamped
 * to [0, 1], and every position leaves one entry in the explanation trail.
 */
module PlateScorer {
  import opened PlateText

  /** TAMANHO_PLACA: the length of a valid plate. */
  const TamanhoPlaca := 7
  /** MAX_PONTUACAO_PERFEITA: the score that stands for similarity 1.0. */
  const MaxPontuacaoPerfeita := 100
  /** The score before any position is compared. */
  const CustoBase := 70

  /** CONFUSOES_OCR: for a character, the characters an OCR engine commonly reads in its place. */
  const ConfusoesOcr: map<char, seq<char>> := map[
    '0' := ['O', 'Q'],
    'O' := ['0', 'Q'],
    'Q' := ['O', '0'],
    '1' := ['I', 'L'],
    'I' := ['1', 'L'],
    'L' := ['I', '1'],
    '2' := ['Z'],
    'Z' := ['2'],
    '5' := ['S'],
    'S' := ['5'],
    '8' := ['B'],
    'B' := ['8'],
    '6' := ['G'],
    'G' := ['6'],
    '4' := ['A'],
    'A' := ['4']
  ]

  /** `CONFUSOES_OCR.get(v, [])`. */
  function ConfusionsOf(v: char): seq<char> {
    if v in ConfusoesOcr then ConfusoesOcr[v] else []
  }

  /** Reading o where v was expected is a typical OCR confusion. */
  predicate IsConfusion(v: char, o: char) {
    o in ConfusionsOf(v)
  }

  /** Which branch judged a position; the formatted message of the source carries exactly this information. */
  datatype Verdict =
    | Correct
    | TypicalConfusion
    | WrongType(expectedIsLetter: bool, obtainedIsDigit: bool)
    | WrongCharacter

  /** The explanation of one position: its verdict and the points it adds to the score. */
  datatype Explanation = Explanation(verdict: Verdict, delta: int)

  /** One entry of `detalhes`; expected and obtained characters are one-character strings, as in the source. */
  datatype Detail =
    | NoOcrText(posicao: int, esperado: string, obtido: string)
    | WrongLength(tamanhoObtido: int)
    | AtPosition(posicao: int, esperado: string, obtido: string, explicacao: Explanation)

  /** The dictionary distancia_ponderada returns. */
  datatype Score = Score(similaridade: real, similaridadePct: real, custoTotal: int, detalhes: seq<Detail>)

  /**
   * How one position is judged, in the order the branches are tried: exact
   * match, then table confusion, then a letter/non-letter mismatch, then any
   * other mismatch. afterMatch is whether the previous position matched.
   */
  function Judge(v: char, o: char, afterMatch: bool): (e: Explanation)
    ensures e.verdict.Correct? <==> v == o
    ensures e.verdict.TypicalConfusion? <==> v != o && IsConfusion(v, o)
    ensures e.verdict.WrongType? <==> v != o && !IsConfusion(v, o) && IsAlpha(v) != IsAlpha(o)
    ensures v == o ==> e.delta == (if afterMatch then 5 else 0)
    ensures v != o ==> -10 <= e.delta <= -3
    ensures e.verdict.TypicalConfusion? ==> e.delta == -3
    ensures e.verdict.WrongType? ==> e.delta == -10 && e.verdict == WrongType(IsAlpha(v), IsDigit(o))
    ensures e.verdict.WrongCharacter? ==> e.delta == -5
    ensures e.delta > 0 <==> v == o && afterMatch
  {
    if v == o then Explanation(Correct, if afterMatch then 5 else 0)
    else if IsConfusion(v, o) then Explanation(TypicalConfusion, -3)
    else if IsAlpha(v) != IsAlpha(o) then Explanation(WrongType(IsAlpha(v), IsDigit(o)), -10)
    else Explanation(WrongCharacter, -5)
  }

  /** Whether position k (counting from 0) follows an exact match; this is the streak flag on entry to step k. */
  predicate AfterMatch(valid: string, ocr: string, k: nat)
    requires k <= |valid| && k <= |ocr|
  {
    k > 0 && valid[k - 1] == ocr[k - 1]
  }

  /** The entry the scorer records for position k (counting from 0). */
  function PositionDetail(valid: string, ocr: string, k: nat): Detail
    requires k < |valid| && k < |ocr|
  {
    AtPosition(k + 1, [valid[k]], [ocr[k]], Judge(valid[k], ocr[k], AfterMatch(valid, ocr, k)))
  }

  /**
   * The points the first n positions add to the base score. Every position
   * costs at most 10, and only positions after the first can earn a bonus, of
   * at most 5.
   */
  function Cost(valid: string, ocr: string, n: nat): (c: int)
    requires n <= |valid| && n <= |ocr|
    ensures -10 * n <= c <= (if n == 0 then 0 else 5 * (n - 1))
  {
    if n == 0 then 0
    else Cost(valid, ocr, n - 1) + Judge(valid[n - 1], ocr[n - 1], AfterMatch(valid, ocr, n - 1)).delta
  }

  /** `max(0.0, min(1.0, x))`. */
  function Clamp01(x: real): (r: real)
    ensures 0.0 <= r <= 1.0
    ensures 0.0 <= x <= 1.0 ==> r == x
    ensures x < 0.0 ==> r == 0.0
    ensures 1.0 < x ==> r == 1.0
  {
    var m := if 1.0 < x then 1.0 else x;
    if 0.0 < m then m else 0.0
  }

  /**
   * The full score of the first n positions reaches its ceiling 5 * (n - 1)
   * exactly when the two plates agree on all of those positions.
   */
  lemma {:induction false} CostPerfectIff(valid: string, ocr: string, n: nat)
    requires 1 <= n <= |valid| && n <= |ocr|
    ensures Cost(valid, ocr, n) == 5 * (n - 1) <==> valid[..n] == ocr[..n]
  {
    if n == 1 {
      assert valid[..1] == [valid[0]] && ocr[..1] == [ocr[0]];
    } else {
      CostPerfectIff(valid, ocr, n - 1);
      assert valid[..n] == valid[..n - 1] + [valid[n - 1]];
      assert ocr[..n] == ocr[..n - 1] + [ocr[n - 1]];
      if valid[..n] == ocr[..n] {
        assert valid[..n - 1] == valid[..n][..n - 1];
        assert ocr[..n - 1] == ocr[..n][..n - 1];
        assert valid[n - 2] == valid[..n - 1][n - 2];
        assert ocr[n - 2] == ocr[..n - 1][n - 2];
        assert valid[n - 1] == valid[..n][n - 1];
        assert ocr[n - 1] == ocr[..n][n - 1];
      }
    }
  }

  /**
   * When every position is a letter/non-letter mismatch that is not a listed
   * confusion, every position costs 10.
   */
  lemma {:induction false} CostAllWrongType(valid: string, ocr: string, n: nat)
    requires n <= |valid| && n <= |ocr|
    requires forall k :: 0 <= k < n ==>
      valid[k] != ocr[k] && !IsConfusion(valid[k], ocr[k]) && IsAlpha(valid[k]) != IsAlpha(ocr[k])
    ensures Cost(valid, ocr, n) == -10 * n
  {
    if n > 0 {
      CostAllWrongType(valid, ocr, n - 1);
    }
  }

  /** distancia_ponderada: score how well the OCR reading matches the expected plate. */
  method DistanciaPonderada(plateValid: string, plateOcr: string) returns (r: Score)
    ensures plateOcr == [] ==> r == Score(0.0, 0.0, 0, [NoOcrText(0, "N/A", "N/A")])
    ensures plateOcr != [] && (|plateValid| != TamanhoPlaca || |plateOcr| != TamanhoPlaca) ==>
      r == Score(0.0, 0.0, 0, [WrongLength(|plateOcr|)])
    ensures |plateValid| == TamanhoPlaca && |plateOcr| == TamanhoPlaca ==>
      && |r.detalhes| == TamanhoPlaca
      && (forall k :: 0 <= k < TamanhoPlaca ==> r.detalhes[k] == PositionDetail(plateValid, plateOcr, k))
      && r.custoTotal == CustoBase + Cost(plateValid, plateOcr, TamanhoPlaca)
      && 0 <= r.custoTotal <= MaxPontuacaoPerfeita
      && r.similaridade == r.custoTotal as real / MaxPontuacaoPerfeita as real
      && (r.custoTotal == MaxPontuacaoPerfeita <==> plateValid == plateOcr)
    ensures 0.0 <= r.similaridade <= 1.0
    ensures r.similaridadePct == r.similaridade * 100.0
  {
    if plateOcr == [] {
      return Score(0.0, 0.0, 0, [NoOcrText(0, "N/A", "N/A")]);
    }
    if |plateValid| != TamanhoPlaca || |plateOcr| != TamanhoPlaca {
      return Score(0.0, 0.0, 0, [WrongLength(|plateOcr|)]);
    }
    var custoTotal := CustoBase;
    var ordemCertaPosAnterior := false;
    var detalhes: seq<Detail> := [];
    for i := 0 to TamanhoPlaca
      invariant |detalhes| == i
      invariant forall k :: 0 <= k < i ==> detalhes[k] == PositionDetail(plateValid, plateOcr, k)
      invariant custoTotal == CustoBase + Cost(plateValid, plateOcr, i)
      invariant ordemCertaPosAnterior == AfterMatch(plateValid, plateOcr, i)
    {
      var v := plateValid[i];
      var o := plateOcr[i];
      if v == o {
        var pontos := if ordemCertaPosAnterior then 5 else 0;
        custoTotal := custoTotal + pontos;
        detalhes := detalhes + [AtPosition(i + 1, [v], [o], Explanation(Correct, pontos))];
        ordemCertaPosAnterior := true;
      } else if o in ConfusionsOf(v) {
        custoTotal := custoTotal - 3;
        detalhes := detalhes + [AtPosition(i + 1, [v], [o], Explanation(TypicalConfusion, -3))];
        ordemCertaPosAnterior := false;
      } else if IsAlpha(v) != IsAlpha(o) {
        custoTotal := custoTotal - 10;
        detalhes := detalhes + [AtPosition(i + 1, [v], [o], Explanation(WrongType(IsAlpha(v), IsDigit(o)), -10))];
        ordemCertaPosAnterior := false;
      } else {
        custoTotal := custoTotal - 5;
        detalhes := detalhes + [AtPosition(i + 1, [v], [o], Explanation(WrongCharacter, -5))];
        ordemCertaPosAnterior := false;
      }
    }
    CostPerfectIff(plateValid, plateOcr, TamanhoPlaca);
    assert plateValid[..TamanhoPlaca] == plateValid && plateOcr[..TamanhoPlaca] == plateOcr;
    var similarity := Clamp01(custoTotal as real / MaxPontuacaoPerfeita as real);
    r := Score(similarity, similarity * 100.0, custoTotal, detalhes);
  }

  /** Two identical 7-character plates score exactly 100. */
  lemma IdenticalPlatesScorePerfect(plate: string)
    requires |plate| == TamanhoPlaca
    ensures CustoBase + Cost(plate, plate, TamanhoPlaca) == MaxPontuacaoPerfeita
  {
    CostPerfectIff(plate, plate, TamanhoPlaca);
  }

  /** Plates that differ in class at every position, with no listed confusion, score exactly 0. */
  lemma AllWrongTypeScoresZero(valid: string, ocr: string)
    requires |valid| == TamanhoPlaca && |ocr| == TamanhoPlaca
    requires forall k :: 0 <= k < TamanhoPlaca ==>
      valid[k] != ocr[k] && !IsConfusion(valid[k], ocr[k]) && IsAlpha(valid[k]) != IsAlpha(ocr[k])
    ensures CustoBase + Cost(valid, ocr, TamanhoPlaca) == 0
  {
    CostAllWrongType(valid, ocr, TamanhoPlaca);
  }

  /** The table is symmetric: if o is listed for v, then v is listed for o. */
  lemma ConfusionSymmetric(v: char, o: char)
    ensures IsConfusion(v, o) <==> IsConfusion(o, v)
  {
  }

  /** No character is listed as a confusion of itself, and only table keys have confusions. */
  lemma ConfusionIrreflexive(v: char, o: char)
    ensures !IsConfusion(v, v)
    ensures IsConfusion(v, o) ==> v in ConfusoesOcr && v != o
  {
  }

  /**
   * A listed confusion is judged before the class test: the letter 'O' read as
   * the digit '0' costs 3, not 10. With the expected "ABC1O23" read as
   * "ABC1023" the score is 70 + 17 = 87.
   */
  lemma ConfusionBeforeClass()
    ensures IsAlpha('O') != IsAlpha('0')
    ensures Judge('O', '0', true) == Explanation(TypicalConfusion, -3)
    ensures CustoBase + Cost("ABC1O23", "ABC1023", TamanhoPlaca) == 87
  {
  }
}
