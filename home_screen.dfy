/** The home screen: a list of at most five picked photos, deleting a photo,
    and sending one for analysis, which stores the recognised emotion. The
    camera, the picker, the user lookup and the insert are inputs here. */
module HomeScreen {
  import opened Wrappers
  import opened Strings
  import FaceAnalysis

  const MaxPhotos := 5
  const TooManyPhotos := "Можно загрузить не более 5 фото"
  const CameraDenied := "Требуется разрешение на использование камеры"
  const SignInRequired := "Требуется авторизация"
  const LowConfidencePrefix := "Низкая уверенность: "
  const ProcessingFailed := "Ошибка обработки"

  /** `prev.filter(uri => uri !== photo)` */
  function Without(images: seq<string>, photo: string): (rest: seq<string>)
    ensures photo !in rest
    ensures forall u :: u != photo ==> multiset(rest)[u] == multiset(images)[u]
    ensures |rest| <= |images|
  {
    if images == [] then []
    else
      var tail := Without(images[1..], photo);
      assert images == [images[0]] + images[1..];
      if images[0] == photo then tail else [images[0]] + tail
  }

  /** Filtering keeps the order of what it keeps: it distributes over
      concatenation. */
  lemma {:induction false} WithoutConcat(a: seq<string>, b: seq<string>, photo: string)
    ensures Without(a + b, photo) == Without(a, photo) + Without(b, photo)
  {
    if a != [] {
      assert (a + b)[1..] == a[1..] + b;
      WithoutConcat(a[1..], b, photo);
    } else {
      assert a + b == b;
    }
  }

  /** A list without the photo is left as it is. */
  lemma {:induction false} WithoutAbsent(images: seq<string>, photo: string)
    requires photo !in images
    ensures Without(images, photo) == images
  {
    if images != [] {
      WithoutAbsent(images[1..], photo);
    }
  }

  /** Filtering twice is filtering once. */
  lemma WithoutIdempotent(images: seq<string>, photo: string)
    ensures Without(Without(images, photo), photo) == Without(images, photo)
  {
    WithoutAbsent(Without(images, photo), photo);
  }

  /** The picker's `result.assets?.[0]?.uri`, when it is truthy. */
  predicate Picked(uri: Option<string>)
  {
    uri.Some? && uri.value != ""
  }

  /** The message shown for a thrown value. */
  function ThrownMessage(t: Thrown): (m: string)
    ensures t.ErrorObj? ==> m == t.message
    ensures t.NonError? ==> m == ProcessingFailed
  {
    match t
    case ErrorObj(message) => message
    case NonError => ProcessingFailed
  }

  datatype Effect =
    | Toast(message: string)
    | InsertEmotion(emotion: string, userId: string)
    /** The success toast, whose percentage text is not modelled. */
    | ResultToast(emotion: string, confidence: real)

  /** Why `sendPhoto` stops before the insert, if it does. */
  function Rejection(userId: Option<string>, a: FaceAnalysis.Analysis): (r: Option<string>)
    ensures r.None? <==> userId.Some? && a.confidence != 0.0 && !(a.confidence < 0.5)
    ensures userId.None? ==> r == Some(SignInRequired)
    ensures userId.Some? && a.confidence == 0.0 ==> r == Some(a.emotion)
    ensures userId.Some? && a.confidence != 0.0 && a.confidence < 0.5 ==> r == Some(LowConfidencePrefix + a.emotion)
  {
    if userId.None? then Some(SignInRequired)
    else if a.confidence == 0.0 then Some(a.emotion)
    else if a.confidence < 0.5 then Some(LowConfidencePrefix + a.emotion)
    else None
  }

  class HomeScreenState {
    var images: seq<string>
    var loading: bool
    var effects: seq<Effect>

    /** At most five photos are held. */
    predicate Valid()
      reads this
    {
      |images| <= MaxPhotos
    }

    constructor ()
      ensures images == [] && !loading && effects == [] && Valid()
    {
      images := [];
      loading := false;
      effects := [];
    }

    /** `openCamera`, with the final permission status and what the camera
      returned. A full list, or a refused permission, shows a toast and
      keeps the list; otherwise a returned photo is added at the end. */
    method OpenCamera(granted: bool, uri: Option<string>)
      modifies this
      ensures loading == old(loading)
      ensures |old(images)| >= MaxPhotos ==> images == old(images) && effects == old(effects) + [Toast(TooManyPhotos)]
      ensures |old(images)| < MaxPhotos && !granted ==> images == old(images) && effects == old(effects) + [Toast(CameraDenied)]
      ensures |old(images)| < MaxPhotos && granted ==>
        effects == old(effects) && images == old(images) + (if Picked(uri) then [uri.value] else [])
      ensures old(Valid()) ==> Valid()
    {
      if |images| >= MaxPhotos {
        effects := effects + [Toast(TooManyPhotos)];
        return;
      }
      if !granted {
        effects := effects + [Toast(CameraDenied)];
        return;
      }
      if Picked(uri) {
        images := images + [uri.value];
      }
    }

    /** `openGallery`: the same cap, no permission step. */
    method OpenGallery(uri: Option<string>)
      modifies this
      ensures loading == old(loading)
      ensures |old(images)| >= MaxPhotos ==> images == old(images) && effects == old(effects) + [Toast(TooManyPhotos)]
      ensures |old(images)| < MaxPhotos ==>
        effects == old(effects) && images == old(images) + (if Picked(uri) then [uri.value] else [])
      ensures old(Valid()) ==> Valid()
    {
      if |images| >= MaxPhotos {
        effects := effects + [Toast(TooManyPhotos)];
        return;
      }
      if Picked(uri) {
        images := images + [uri.value];
      }
    }

    /** The 'Удалить' button of `handleDelete`: every copy of the photo
      goes, the rest keep their order. */
    method Delete(photo: string)
      modifies this
      ensures images == Without(old(images), photo)
      ensures loading == old(loading) && effects == old(effects)
      ensures old(Valid()) ==> Valid()
    {
      images := Without(images, photo);
    }

    /** `sendPhoto`, with the signed-in user's id (if any), the model's
      exchange and the insert's error. Only an analysis with confidence of
      at least 0.5 is stored, and only a stored photo leaves the list;
      `loading` ends false. */
    method SendPhoto(photo: string, userId: Option<string>, x: FaceAnalysis.Exchange, insertError: Option<Thrown>)
      modifies this
      ensures !loading
      ensures var a := FaceAnalysis.AnalyzeFace(x);
        Rejection(userId, a).Some? ==>
          images == old(images) && effects == old(effects) + [Toast(Rejection(userId, a).value)]
      ensures var a := FaceAnalysis.AnalyzeFace(x);
        Rejection(userId, a).None? && insertError.Some? ==>
          images == old(images)
          && effects == old(effects) + [InsertEmotion(a.emotion, userId.value), Toast(ThrownMessage(insertError.value))]
      ensures var a := FaceAnalysis.AnalyzeFace(x);
        Rejection(userId, a).None? && insertError.None? ==>
          images == Without(old(images), photo)
          && effects == old(effects) + [InsertEmotion(a.emotion, userId.value), ResultToast(a.emotion, a.confidence)]
      ensures old(Valid()) ==> Valid()
    {
      loading := true;
      var a := FaceAnalysis.AnalyzeFace(x);
      Store(photo, userId, a, insertError);
      loading := false;
    }

    /** The part of `sendPhoto` after the analysis: the checks, the insert
      and their toasts. */
    method Store(photo: string, userId: Option<string>, a: FaceAnalysis.Analysis, insertError: Option<Thrown>)
      modifies this
      ensures loading == old(loading)
      ensures Rejection(userId, a).Some? ==>
        images == old(images) && effects == old(effects) + [Toast(Rejection(userId, a).value)]
      ensures Rejection(userId, a).None? && insertError.Some? ==>
        images == old(images)
        && effects == old(effects) + [InsertEmotion(a.emotion, userId.value), Toast(ThrownMessage(insertError.value))]
      ensures Rejection(userId, a).None? && insertError.None? ==>
        images == Without(old(images), photo)
        && effects == old(effects) + [InsertEmotion(a.emotion, userId.value), ResultToast(a.emotion, a.confidence)]
      ensures old(Valid()) ==> Valid()
    {
      var rejected := Rejection(userId, a);
      if rejected.Some? {
        effects := effects + [Toast(rejected.value)];
      } else {
        effects := effects + [InsertEmotion(a.emotion, userId.value)];
        if insertError.Some? {
          effects := effects + [Toast(ThrownMessage(insertError.value))];
        } else {
          images := Without(images, photo);
          effects := effects + [ResultToast(a.emotion, a.confidence)];
        }
      }
    }
  }

  /** An analysis that gets past the checks came from a valid answer of the
      model (every failure has confidence 0), so the emotion stored is one
      of the eight translations: neither error label is ever stored. */
  lemma StoredEmotionIsTranslation(userId: Option<string>, x: FaceAnalysis.Exchange)
    requires Rejection(userId, FaceAnalysis.AnalyzeFace(x)).None?
    ensures FaceAnalysis.OutcomeOf(x).Valid?
    ensures FaceAnalysis.IsTranslation(FaceAnalysis.AnalyzeFace(x).emotion)
  {
    if FaceAnalysis.OutcomeOf(x).Failed? {
      FaceAnalysis.AnalyzeFaceFailed(x);
    } else {
      FaceAnalysis.AnalyzeFaceSuccess(x);
    }
  }
}
