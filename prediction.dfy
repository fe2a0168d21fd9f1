/** `lib/prediction/prediction.py`: the input gate and feature vector of
    `Prediction.predict` over abstract classifiers, and `penangana_gejalan`,
    the guidance text composed from three fixed tables. */
module Prediction {
  import opened Wrappers
  import opened PyStr

  // ---------------------------------------------------------------------------
  // penangana_gejalan

  // The BB/U guidance texts.
  const BbuRisikoLebih := "Evaluasi pola makan dan aktivitas fisik. Konseling gizi seimbang (\"Isi Piringku\"), promosi aktivitas fisik, batasi screen time, pemantauan bulanan."
  const BbuNormal := "Pantau tren pertumbuhan (naik/tidak). Lanjutkan pemantauan pertumbuhan bulanan di Posyandu, berikan pujian dan dukungan."
  const BbuKurang := "Triase Kritis: Ukur TB/PB untuk diagnosis banding wasting vs. stunting. Rujuk ke Puskesmas untuk asesmen lengkap. Tatalaksana berdasarkan diagnosis BB/TB dan TB/U."
  const BbuSangatKurang := "Rujuk Segera ke Puskesmas: Asesmen lengkap (BB/TB, TB/U, tanda bahaya). Tatalaksana gizi buruk dan/atau stunting berat sesuai protokol."

  /** The BB/U (weight-for-age) guidance table. */
  const BbuMap: map<string, string> := map[
    "risiko lebih" := BbuRisikoLebih,
    "normal" := BbuNormal,
    "kurang" := BbuKurang,
    "sangat kurang" := BbuSangatKurang
  ]

  // The TB/U guidance texts.
  const TbuTinggi := "Evaluasi klinis untuk menyingkirkan kelainan endokrin jika ekstrem (>+3 SD). Umumnya tidak ada intervensi. Lanjutkan pemantauan."
  const TbuNormal := "Pastikan pertumbuhan linear mengikuti kurva. Lanjutkan pemantauan, dukung pola makan sehat."
  const TbuPendek := "Kaji riwayat 1.000 HPK, skrining anemia & infeksi, evaluasi asupan protein hewani. Intervensi Multi-faktorial: Peningkatan asupan protein hewani, suplementasi mikronutrien (Zinc, Fe), tata laksana infeksi, perbaikan sanitasi (PHBS), stimulasi psikososial."
  const TbuSangatPendek := "Sama seperti stunted, dengan penekanan pada pencarian penyakit penyerta. Sama seperti stunted, dengan intensitas lebih tinggi dan kemungkinan rujukan ke spesialis."

  /** The TB/U (height-for-age) guidance table. */
  const TbuMap: map<string, string> := map[
    "tinggi" := TbuTinggi,
    "normal" := TbuNormal,
    "pendek" := TbuPendek,
    "sangat pendek" := TbuSangatPendek
  ]

  // The BB/TB guidance texts.
  const BbtbObesitas := "Skrining komorbiditas (hipertensi, dislipidemia, dll). Asesmen gaya hidup keluarga. Modifikasi Gaya Hidup: Pola makan sehat terstruktur, peningkatan aktivitas fisik (>60 menit/hari), pengurangan waktu sedentari (<2 jam/hari), modifikasi perilaku keluarga."
  const BbtbGiziLebih := "Sama seperti obesitas."
  const BbtbRisikoGiziLebih := "Evaluasi pola makan dan aktivitas fisik. Konseling pencegahan, promosi gaya hidup sehat."
  const BbtbGiziBaik := "Pastikan berat badan naik sesuai kurva. Lanjutkan pemantauan dan praktik pemberian makan yang baik."
  const BbtbGiziKurang := "Konfirmasi di Puskesmas, tes nafsu makan, singkirkan komplikasi medis. PMT Pemulihan selama 90 hari, konseling gizi intensif, pemantauan berat badan mingguan."
  const BbtbGiziBuruk := "Kegawatdaruratan Medis: Periksa komplikasi (nafsu makan, kesadaran, dehidrasi, dll). Tanpa Komplikasi: Rawat jalan dengan RUTF dan pemantauan mingguan. Dengan Komplikasi: Rawat Inap dan tatalaksana sesuai 10 Langkah WHO (F-75, F-100)."

  /** The BB/TB (weight-for-height) guidance table. */
  const BbtbMap: map<string, string> := map[
    "obesitas" := BbtbObesitas,
    "gizi lebih" := BbtbGiziLebih,
    "risiko gizi lebih" := BbtbRisikoGiziLebih,
    "gizi baik" := BbtbGiziBaik,
    "gizi kurang" := BbtbGiziKurang,
    "gizi buruk" := BbtbGiziBuruk
  ]

  const Fallback := "Tidak ada rekomendasi penanganan."

  /** The BB/U table holds 4 labels. */
  lemma BbuTableSize()
    ensures BbuMap.Keys == {"risiko lebih", "normal", "kurang", "sangat kurang"}
    ensures |BbuMap| == 4
  {
    assert BbuMap.Keys == {"risiko lebih", "normal", "kurang", "sangat kurang"};
  }

  /** The TB/U table holds 4 labels. */
  lemma TbuTableSize()
    ensures TbuMap.Keys == {"tinggi", "normal", "pendek", "sangat pendek"}
    ensures |TbuMap| == 4
  {
    assert TbuMap.Keys == {"tinggi", "normal", "pendek", "sangat pendek"};
  }

  /** The BB/TB table holds 6 labels. */
  lemma BbtbTableSize()
    ensures BbtbMap.Keys == {"obesitas", "gizi lebih", "risiko gizi lebih", "gizi baik", "gizi kurang", "gizi buruk"}
    ensures |BbtbMap| == 6
  {
    assert BbtbMap.Keys == {"obesitas", "gizi lebih", "risiko gizi lebih", "gizi baik", "gizi kurang", "gizi buruk"};
  }

  /** Lower-casing keeps a character's whitespace status. */
  lemma LowerCharSpace(c: char)
    ensures IsSpace(LowerChar(c)) <==> IsSpace(c)
  {
  }

  /** `label.strip().lower()`: the normalised lookup key, which has no
      whitespace at either end and no upper-case letter. */
  function Key(status: string): (k: string)
    ensures |k| <= |status|
    ensures k == [] || (!IsSpace(k[0]) && !IsSpace(k[|k| - 1]))
    ensures NoUpper(k)
  {
    var t := Strip(status);
    if t != [] then
      LowerCharSpace(t[0]);
      LowerCharSpace(t[|t| - 1]);
      Lower(t)
    else Lower(t)
  }

  lemma {:induction false} LStripLower(s: string)
    ensures LStrip(Lower(s)) == Lower(LStrip(s))
  {
    if s != [] {
      LowerCharSpace(s[0]);
      assert Lower(s)[1..] == Lower(s[1..]);
      if IsSpace(s[0]) {
        LStripLower(s[1..]);
      }
    }
  }

  lemma {:induction false} RStripLower(s: string)
    ensures RStrip(Lower(s)) == Lower(RStrip(s))
  {
    if s != [] {
      LowerCharSpace(s[|s| - 1]);
      assert Lower(s)[..|s| - 1] == Lower(s[..|s| - 1]);
      if IsSpace(s[|s| - 1]) {
        RStripLower(s[..|s| - 1]);
      }
    }
  }

  /** Stripping and lower-casing commute, so the key may equally be read as
      `label.lower().strip()`. */
  lemma KeyLowerFirst(status: string)
    ensures Key(status) == Strip(Lower(status))
  {
    LStripLower(status);
    RStripLower(LStrip(status));
  }

  /** Neither the case of a label nor whitespace around it changes its key. */
  lemma KeyNormalises(w1: string, status: string, w2: string)
    requires forall i :: 0 <= i < |w1| ==> IsSpace(w1[i])
    requires forall i :: 0 <= i < |w2| ==> IsSpace(w2[i])
    ensures Key(w1 + status + w2) == Key(status)
    ensures Key(Upper(status)) == Key(status)
    ensures Key(Lower(status)) == Key(status)
  {
    StripSurroundingSpace(w1, status, w2);
    KeyLowerFirst(Upper(status));
    KeyLowerFirst(Lower(status));
    KeyLowerFirst(status);
    LowerOfUpper(status);
    LowerIdempotent(status);
  }

  /** The three guidance tables, BB/U, TB/U and BB/TB. The composition is
      stated for any tables; `Guidance` holds the fixed ones. */
  datatype Tables = Tables(bbu: map<string, string>, tbu: map<string, string>, bbtb: map<string, string>)

  const Guidance := Tables(BbuMap, TbuMap, BbtbMap)

  /** One table's contribution: `prefix + table[key]` when the key is there,
      nothing otherwise. */
  function Entry(prefix: string, table: map<string, string>, key: string): (e: seq<string>)
    ensures |e| <= 1
    ensures e != [] <==> key in table
    ensures e != [] ==> e[0] == prefix + table[key]
  {
    if key in table then [prefix + table[key]] else []
  }

  /** The list `rekomendasi` for the normalised keys: the matched entries,
      BB/U then TB/U then BB/TB. */
  function Recommendations(t: Tables, kb: string, kt: string, kbt: string): seq<string> {
    Entry("BB/U: ", t.bbu, kb) + Entry("TB/U: ", t.tbu, kt) + Entry("BB/TB: ", t.bbtb, kbt)
  }

  /** Each key found contributes exactly one entry and a missing one none;
      the BB/U entry, when present, comes first, the TB/U entry next and the
      BB/TB entry last. */
  lemma RecommendationsOrder(t: Tables, kb: string, kt: string, kbt: string)
    ensures var rs := Recommendations(t, kb, kt, kbt);
      |rs| == (if kb in t.bbu then 1 else 0) + (if kt in t.tbu then 1 else 0) + (if kbt in t.bbtb then 1 else 0)
      && (kb in t.bbu ==> rs[0] == "BB/U: " + t.bbu[kb])
      && (kt in t.tbu ==> rs[if kb in t.bbu then 1 else 0] == "TB/U: " + t.tbu[kt])
      && (kbt in t.bbtb ==> rs[|rs| - 1] == "BB/TB: " + t.bbtb[kbt])
  {
  }

  /** `" ".join(xs)`. */
  function JoinSpace(xs: seq<string>): (r: string)
    ensures xs == [] ==> r == ""
    ensures xs != [] ==> |xs[0]| <= |r| && forall i :: 0 <= i < |xs[0]| ==> r[i] == xs[0][i]
    ensures |xs| == 1 ==> r == xs[0]
  {
    if xs == [] then ""
    else if |xs| == 1 then xs[0]
    else xs[0] + " " + JoinSpace(xs[1..])
  }

  /** Joining two or three entries puts one space between neighbours. */
  lemma JoinSpaceSmall(a: string, b: string, c: string)
    ensures JoinSpace([a, b]) == a + " " + b
    ensures JoinSpace([a, b, c]) == a + " " + b + " " + c
  {
    assert [a, b][1..] == [b];
    assert [a, b, c][1..] == [b, c];
    assert [b, c][1..] == [c];
  }

  /** Every entry begins with "BB" or "TB", so a composed text never equals
      the fallback sentence, which begins with "Ti". */
  lemma NotFallback(rs: seq<string>)
    requires rs != [] && |rs[0]| >= 2 && rs[0][1] == 'B'
    ensures JoinSpace(rs) != Fallback
  {
    assert JoinSpace(rs)[1] == 'B';
  }

  /** The composition for normalised keys: the fallback sentence exactly
      when no key is found, otherwise the matched entries joined by single
      spaces. */
  function ComposeKeys(t: Tables, kb: string, kt: string, kbt: string): (r: string)
    ensures r == Fallback <==> kb !in t.bbu && kt !in t.tbu && kbt !in t.bbtb
    ensures r != Fallback ==> r == JoinSpace(Recommendations(t, kb, kt, kbt))
  {
    var rs := Recommendations(t, kb, kt, kbt);
    if rs == [] then Fallback
    else
      RecommendationsOrder(t, kb, kt, kbt);
      NotFallback(rs);
      JoinSpace(rs)
  }

  /** A single found key gives just its own entry. */
  lemma ComposeSingle(t: Tables, kb: string, kt: string, kbt: string)
    ensures kb in t.bbu && kt !in t.tbu && kbt !in t.bbtb ==>
      ComposeKeys(t, kb, kt, kbt) == "BB/U: " + t.bbu[kb]
    ensures kb !in t.bbu && kt in t.tbu && kbt !in t.bbtb ==>
      ComposeKeys(t, kb, kt, kbt) == "TB/U: " + t.tbu[kt]
    ensures kb !in t.bbu && kt !in t.tbu && kbt in t.bbtb ==>
      ComposeKeys(t, kb, kt, kbt) == "BB/TB: " + t.bbtb[kbt]
  {
    RecommendationsOrder(t, kb, kt, kbt);
  }

  /** Two found keys give their entries in table order, one space apart; the
      missing one is skipped. */
  lemma ComposePairs(t: Tables, kb: string, kt: string, kbt: string)
    ensures kb in t.bbu && kt in t.tbu && kbt !in t.bbtb ==>
      ComposeKeys(t, kb, kt, kbt) == "BB/U: " + t.bbu[kb] + " " + "TB/U: " + t.tbu[kt]
    ensures kb in t.bbu && kt !in t.tbu && kbt in t.bbtb ==>
      ComposeKeys(t, kb, kt, kbt) == "BB/U: " + t.bbu[kb] + " " + "BB/TB: " + t.bbtb[kbt]
    ensures kb !in t.bbu && kt in t.tbu && kbt in t.bbtb ==>
      ComposeKeys(t, kb, kt, kbt) == "TB/U: " + t.tbu[kt] + " " + "BB/TB: " + t.bbtb[kbt]
  {
    var rs := Recommendations(t, kb, kt, kbt);
    if kb in t.bbu && kt in t.tbu && kbt !in t.bbtb {
      JoinTwo(rs, "BB/U: " + t.bbu[kb], "TB/U: " + t.tbu[kt]);
    } else if kb in t.bbu && kt !in t.tbu && kbt in t.bbtb {
      JoinTwo(rs, "BB/U: " + t.bbu[kb], "BB/TB: " + t.bbtb[kbt]);
    } else if kb !in t.bbu && kt in t.tbu && kbt in t.bbtb {
      JoinTwo(rs, "TB/U: " + t.tbu[kt], "BB/TB: " + t.bbtb[kbt]);
    }
  }

  /** All three keys found: BB/U, TB/U and BB/TB guidance, one space apart. */
  lemma ComposeAll(t: Tables, kb: string, kt: string, kbt: string)
    requires kb in t.bbu && kt in t.tbu && kbt in t.bbtb
    ensures ComposeKeys(t, kb, kt, kbt)
      == "BB/U: " + t.bbu[kb] + " " + "TB/U: " + t.tbu[kt] + " " + "BB/TB: " + t.bbtb[kbt]
  {
    var a, b, c := "BB/U: " + t.bbu[kb], "TB/U: " + t.tbu[kt], "BB/TB: " + t.bbtb[kbt];
    assert Recommendations(t, kb, kt, kbt) == [a, b, c];
    JoinSpaceSmall(a, b, c);
  }

  lemma JoinTwo(rs: seq<string>, a: string, b: string)
    ensures rs == [a, b] ==> JoinSpace(rs) == a + " " + b
  {
    JoinSpaceSmall(a, b, "");
  }

  /** `penangana_gejalan` over the tables `t`: each label is normalised by
      `strip().lower()` before its lookup; the fallback sentence comes back
      exactly when no normalised label is in its table. */
  function Compose(t: Tables, bbu: string, tbu: string, bbtb: string): (r: string)
    ensures r == Fallback <==> Key(bbu) !in t.bbu && Key(tbu) !in t.tbu && Key(bbtb) !in t.bbtb
    ensures r != Fallback ==> r == JoinSpace(Recommendations(t, Key(bbu), Key(tbu), Key(bbtb)))
  {
    ComposeKeys(t, Key(bbu), Key(tbu), Key(bbtb))
  }

  /** `penangana_gejalan(bbu, tbu, bbtb)` with the fixed tables; a function of
      three labels, as declared (without `self`). The fallback sentence comes
      back exactly when no normalised label is a key of its table (the keys
      are listed by BbuTableSize, TbuTableSize and BbtbTableSize). */
  function PenanganaGejalan(bbu: string, tbu: string, bbtb: string): (r: string)
    ensures r == Fallback <==> Key(bbu) !in Guidance.bbu && Key(tbu) !in Guidance.tbu && Key(bbtb) !in Guidance.bbtb
    ensures r != Fallback ==> r == JoinSpace(Recommendations(Guidance, Key(bbu), Key(tbu), Key(bbtb)))
  {
    Compose(Guidance, bbu, tbu, bbtb)
  }

  /** Labels that differ only in case and surrounding whitespace get the same
      guidance, whatever the tables. */
  lemma ComposeNormalises(t: Tables, bbu: string, tbu: string, bbtb: string, w1: string, w2: string)
    requires forall i :: 0 <= i < |w1| ==> IsSpace(w1[i])
    requires forall i :: 0 <= i < |w2| ==> IsSpace(w2[i])
    ensures Compose(t, w1 + Upper(bbu) + w2, Upper(tbu), w1 + bbtb + w2) == Compose(t, bbu, tbu, bbtb)
  {
    KeysNormalise(bbu, tbu, bbtb, w1, w2);
  }

  lemma KeysNormalise(bbu: string, tbu: string, bbtb: string, w1: string, w2: string)
    requires forall i :: 0 <= i < |w1| ==> IsSpace(w1[i])
    requires forall i :: 0 <= i < |w2| ==> IsSpace(w2[i])
    ensures Key(w1 + Upper(bbu) + w2) == Key(bbu)
    ensures Key(Upper(tbu)) == Key(tbu)
    ensures Key(w1 + bbtb + w2) == Key(bbtb)
  {
    KeyNormalises(w1, bbu, w2);
    KeyNormalises(w1, Upper(bbu), w2);
    KeyNormalises([], tbu, []);
    KeyNormalises(w1, bbtb, w2);
  }

  /** With the fixed tables, the keys "normal" (BB/U), "pendek" (TB/U) and
      the TB/U-only key "tinggi" (BB/TB) give the BB/U and TB/U guidance. */
  lemma GuidanceExample()
    ensures ComposeKeys(Guidance, "normal", "pendek", "tinggi") == "BB/U: " + BbuNormal + " " + "TB/U: " + TbuPendek
  {
    assert "normal" in BbuMap && BbuMap["normal"] == BbuNormal;
    assert "pendek" in TbuMap && TbuMap["pendek"] == TbuPendek;
    assert "tinggi" !in BbtbMap;
    ComposePairs(Guidance, "normal", "pendek", "tinggi");
  }

  // ---------------------------------------------------------------------------
  // Prediction.predict

  /** `PredictionInput`; `tanggal_lahir` is carried but not read by `predict`. */
  datatype PredictionInput = PredictionInput(
    usia: real, jenisKelamin: string, bbLahir: real, tbLahir: real, tanggalLahir: string,
    berat: real, tinggi: real, zsBbu: Option<real>, zsTbu: Option<real>, zsBbtb: Option<real>)

  /** `PredictionOutput`. */
  datatype PredictionOutput = PredictionOutput(tbu: string, bbu: string, bbtb: string)

  /** One loaded XGBoost model with its label encoder: `predict` on a single
      feature row and `inverse_transform` of the class index. Both may raise,
      with the exception's text as the error. */
  datatype Classifier = Classifier(
    predict: seq<Option<real>> -> Result<int, string>,
    decode: int -> Result<string, string>)

  /** The dictionaries `self.models` and `self.encoders` after loading. */
  datatype Models = Models(
    encodeGender: string -> Result<real, string>,
    tbu: Classifier, bbu: Classifier, bbtb: Classifier)

  const SexError := "Jenis kelamin harus 'L' atau 'P'"
  const AgeError := "Usia harus antara 1-5 tahun"

  /** The two validation checks of `predict`, in order. */
  function CheckInput(data: PredictionInput): (err: Option<string>)
    ensures err == Some(SexError) <==> data.jenisKelamin != "L" && data.jenisKelamin != "P"
    ensures err == Some(AgeError) <==>
      (data.jenisKelamin == "L" || data.jenisKelamin == "P") && !(1.0 <= data.usia <= 5.0)
    ensures err.None? <==> (data.jenisKelamin == "L" || data.jenisKelamin == "P") && 1.0 <= data.usia <= 5.0
  {
    if data.jenisKelamin != "L" && data.jenisKelamin != "P" then Some(SexError)
    else if !(1.0 <= data.usia <= 5.0) then Some(AgeError)
    else None
  }

  /** The age gate is closed at both ends: 1 and 5 years pass, anything just
      outside does not. */
  lemma AgeBoundsInclusive(data: PredictionInput)
    requires data.jenisKelamin == "L" || data.jenisKelamin == "P"
    ensures CheckInput(data.(usia := 1.0)).None?
    ensures CheckInput(data.(usia := 5.0)).None?
    ensures CheckInput(data.(usia := 0.99)) == Some(AgeError)
    ensures CheckInput(data.(usia := 5.01)) == Some(AgeError)
  {
  }

  /** The single input row, in the column order the models were trained on. */
  function FeatureVector(gender: real, data: PredictionInput): (x: seq<Option<real>>)
    ensures |x| == 9
    ensures x[0] == Some(gender) && x[1] == Some(data.bbLahir) && x[2] == Some(data.tbLahir)
    ensures x[3] == Some(data.usia) && x[4] == Some(data.berat) && x[5] == Some(data.tinggi)
    ensures x[6] == data.zsBbu && x[7] == data.zsTbu && x[8] == data.zsBbtb
  {
    [Some(gender), Some(data.bbLahir), Some(data.tbLahir), Some(data.usia),
     Some(data.berat), Some(data.tinggi), data.zsBbu, data.zsTbu, data.zsBbtb]
  }

  /** Every step of the prediction that can raise succeeds. */
  predicate OraclesSucceed(m: Models, data: PredictionInput) {
    m.encodeGender(data.jenisKelamin).Success?
    && var x := FeatureVector(m.encodeGender(data.jenisKelamin).value, data);
    m.tbu.predict(x).Success? && m.bbu.predict(x).Success? && m.bbtb.predict(x).Success?
    && m.tbu.decode(m.tbu.predict(x).value).Success?
    && m.bbu.decode(m.bbu.predict(x).value).Success?
    && m.bbtb.decode(m.bbtb.predict(x).value).Success?
  }

  function Seq3(a: Result<string, string>, b: Result<string, string>, c: Result<string, string>): (r: Result<PredictionOutput, string>)
    ensures r.Success? <==> a.Success? && b.Success? && c.Success?
    ensures r.Success? ==> r.value == PredictionOutput(a.value, b.value, c.value)
  {
    match a
    case Failure(e) => Failure(e)
    case Success(ha) =>
      match b
      case Failure(e) => Failure(e)
      case Success(hb) =>
        match c
        case Failure(e) => Failure(e)
        case Success(hc) => Success(PredictionOutput(ha, hb, hc))
  }

  /** `Prediction.predict`: validation, gender encoding, the three model
      predictions on one feature row and their decoding, each indicator by its
      own encoder. Any failure is re-raised with its message. */
  function Predict(m: Models, data: PredictionInput): (r: Result<PredictionOutput, string>)
    ensures CheckInput(data).Some? ==> r == Failure(CheckInput(data).value)
    ensures r.Success? <==> CheckInput(data).None? && OraclesSucceed(m, data)
    ensures r.Success? ==>
      var x := FeatureVector(m.encodeGender(data.jenisKelamin).value, data);
      r.value.tbu == m.tbu.decode(m.tbu.predict(x).value).value
      && r.value.bbu == m.bbu.decode(m.bbu.predict(x).value).value
      && r.value.bbtb == m.bbtb.decode(m.bbtb.predict(x).value).value
  {
    match CheckInput(data)
    case Some(e) => Failure(e)
    case None =>
      match m.encodeGender(data.jenisKelamin)
      case Failure(e) => Failure(e)
      case Success(g) =>
        var x := FeatureVector(g, data);
        match m.tbu.predict(x)
        case Failure(e) => Failure(e)
        case Success(pt) =>
          match m.bbu.predict(x)
          case Failure(e) => Failure(e)
          case Success(pb) =>
            match m.bbtb.predict(x)
            case Failure(e) => Failure(e)
            case Success(pbt) => Seq3(m.tbu.decode(pt), m.bbu.decode(pb), m.bbtb.decode(pbt))
  }
}
