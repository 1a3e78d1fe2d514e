/**
 * The two customer rating pages: three categories rated with one to five
 * stars and a comment. The page reached from the e-mail link (`AvaliacaoPage`)
 * posts the rating for the order named in its URL; the older page
 * (`FeedbackPage`) only logs what was entered.
 */
module RatingPages {
  import opened Wrappers

  datatype Category = Atendimento | TempoEntrega | QualidadeMaterial

  /** The `rating` record; 0 means "not rated yet". */
  datatype Ratings = Ratings(atendimento: int, tempoEntrega: int, qualidadeMaterial: int) {
    function Get(c: Category): int {
      match c
      case Atendimento => atendimento
      case TempoEntrega => tempoEntrega
      case QualidadeMaterial => qualidadeMaterial
    }

    /** `{ ...prev, [category]: value }`. */
    function Set(c: Category, value: int): (r: Ratings)
      ensures r.Get(c) == value
      ensures forall other :: other != c ==> r.Get(other) == Get(other)
    {
      match c
      case Atendimento => this.(atendimento := value)
      case TempoEntrega => this.(tempoEntrega := value)
      case QualidadeMaterial => this.(qualidadeMaterial := value)
    }

    /** Every category holds 0 (unrated) or a number of stars. */
    predicate InRange() {
      forall c :: 0 <= Get(c) <= 5
    }

    /** The send button is disabled while a category is unrated. */
    predicate SubmitDisabled() {
      atendimento == 0 || tempoEntrega == 0 || qualidadeMaterial == 0
    }
  }

  const Unrated := Ratings(0, 0, 0)

  /** A star click keeps every category within 0 to 5. */
  lemma ClickKeepsRange(r: Ratings, c: Category, star: int)
    requires r.InRange() && 1 <= star <= 5
    ensures r.Set(c, star).InRange()
    ensures r.Set(c, star).Get(c) != 0
  {
    forall other ensures 0 <= r.Set(c, star).Get(other) <= 5 {
      if other != c {
        assert r.Set(c, star).Get(other) == r.Get(other);
      }
    }
  }

  /** Sending is enabled exactly when every category has been clicked at least once. */
  lemma EnabledIffAllRated(r: Ratings)
    requires r.InRange()
    ensures !r.SubmitDisabled() <==> forall c :: 1 <= r.Get(c) <= 5
  {
    assert r.Get(Atendimento) == r.atendimento;
    assert r.Get(TempoEntrega) == r.tempoEntrega;
    assert r.Get(QualidadeMaterial) == r.qualidadeMaterial;
  }

  /** Star `star` (1 to 5) is drawn filled when the rating reaches it. */
  predicate StarFilled(star: int, rating: int) {
    star <= rating
  }

  /** The caption under the stars; no caption for a value outside 0 to 5. */
  function Caption(rating: int): (c: Option<string>)
    ensures c.Some? <==> 0 <= rating <= 5
    ensures rating == 0 ==> c == Some("Selecione uma avaliação")
  {
    if 0 <= rating <= 5 then
      Some(["Selecione uma avaliação", "Ruim", "Regular", "Bom", "Muito bom", "Ótimo"][rating])
    else None
  }

  /**
   * The caption and the stars tell the same thing: the prompt shows exactly
   * when no star is filled, and each rating has a caption of its own.
   */
  lemma CaptionMatchesStars(rating: int, other: int)
    requires 0 <= rating <= 5 && 0 <= other <= 5
    ensures Caption(rating) == Some("Selecione uma avaliação") <==> forall star :: 1 <= star <= 5 ==> !StarFilled(star, rating)
    ensures rating != other ==> Caption(rating) != Caption(other)
  {
    var captions := ["Selecione uma avaliação", "Ruim", "Regular", "Bom", "Muito bom", "Ótimo"];
    assert |captions[0]| == 23 && |captions[1]| == 4 && |captions[2]| == 7;
    assert |captions[3]| == 3 && |captions[4]| == 9 && |captions[5]| == 5;
    if rating > 0 {
      assert StarFilled(1, rating);
    }
  }

  /** The JSON body of the rating POST. */
  datatype AvaliacaoBody = AvaliacaoBody(
    orderId: string,
    atendimento: int,
    tempoEntrega: int,
    qualidadeMaterial: int,
    comentario: string)

  /** The page reached from the e-mail link. */
  class AvaliacaoForm {
    var rating: Ratings
    var comentario: string
    var orderId: Option<string>

    predicate Valid()
      reads this
    {
      rating.InRange()
    }

    constructor ()
      ensures Valid() && rating == Unrated && comentario == "" && orderId.None?
    {
      rating := Unrated;
      comentario := "";
      orderId := None;
    }

    /** The mount effect: `orderId` from the URL's query, or None when absent. */
    method ReadOrderId(query: Option<string>)
      modifies this
      ensures orderId == query && rating == old(rating) && comentario == old(comentario)
    {
      orderId := query;
    }

    /** A click on star `star` of category `c`. */
    method ClickStar(c: Category, star: int)
      requires Valid() && 1 <= star <= 5
      modifies this
      ensures Valid() && rating == old(rating).Set(c, star)
      ensures comentario == old(comentario) && orderId == old(orderId)
    {
      ClickKeepsRange(rating, c, star);
      rating := rating.Set(c, star);
    }

    method SetComentario(text: string)
      modifies this
      ensures comentario == text && rating == old(rating) && orderId == old(orderId)
    {
      comentario := text;
    }

    /**
     * `handleSubmit`, with `outcome` the answer of the POST. A missing or empty
     * order id alerts and sends nothing; otherwise the body carries the id, the
     * three ratings and the comment, and only a successful answer alerts.
     */
    method Submit(outcome: Outcome) returns (request: Option<AvaliacaoBody>, alert: Option<string>)
      ensures orderId.None? || orderId.value == "" ==>
                request.None? && alert == Some("ID do pedido não encontrado")
      ensures orderId.Some? && orderId.value != "" ==>
                request == Some(AvaliacaoBody(orderId.value, rating.atendimento, rating.tempoEntrega,
                                              rating.qualidadeMaterial, comentario))
                && alert == (if outcome.Ok? then Some("Feedback enviado com sucesso!") else None)
    {
      if orderId.None? || orderId.value == "" {
        return None, Some("ID do pedido não encontrado");
      }
      request := Some(AvaliacaoBody(orderId.value, rating.atendimento, rating.tempoEntrega,
                                    rating.qualidadeMaterial, comentario));
      alert := if outcome.Ok? then Some("Feedback enviado com sucesso!") else None;
    }
  }

  /** What the older page writes to the console. */
  datatype FeedbackLog = FeedbackLog(rating: Ratings, comentario: string)

  /** The older page: the same stars, and a submit that only logs. */
  class FeedbackForm {
    var rating: Ratings
    var comentario: string

    predicate Valid()
      reads this
    {
      rating.InRange()
    }

    constructor ()
      ensures Valid() && rating == Unrated && comentario == ""
    {
      rating := Unrated;
      comentario := "";
    }

    method ClickStar(c: Category, star: int)
      requires Valid() && 1 <= star <= 5
      modifies this
      ensures Valid() && rating == old(rating).Set(c, star) && comentario == old(comentario)
    {
      ClickKeepsRange(rating, c, star);
      rating := rating.Set(c, star);
    }

    method SetComentario(text: string)
      modifies this
      ensures comentario == text && rating == old(rating)
    {
      comentario := text;
    }

    /** `handleSubmit`: logs the ratings and the comment, sends nothing and changes nothing. */
    method Submit() returns (log: FeedbackLog)
      ensures log.rating == rating && log.comentario == comentario
    {
      log := FeedbackLog(rating, comentario);
    }
  }
}
