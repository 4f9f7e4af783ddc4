/**
 * The review section of a product page: the statistics computed from the
 * loaded reviews (count, rating sum, distribution by stars), the star row of a
 * rating, the author's initials, and the submission of a new review, which goes
 * to the front of the list and refreshes the statistics.
 */
module ProductReview {
  import opened Wrappers
  import opened Lists
  import opened Text

  datatype ReviewUser = ReviewUser(id: int, nombre: string, apellido: string)

  /** A review as the page holds it; the author may be missing from the backend's answer. */
  datatype Review = Review(id: int, idProducto: int, usuario: Option<ReviewUser>, calificacion: int,
                           comentario: string, fechaCreacion: string)

  /** The logged-in user as the page sees it. */
  datatype CurrentUser = CurrentUser(id: int, nombre: string, apellido: string)

  /**
   * The statistics of a non-empty list: the average is the quotient
   * `sumaCalificaciones / totalResenas`, kept here as its two terms.
   */
  datatype Stats = Stats(sumaCalificaciones: int, totalResenas: nat,
                         estrellas5: nat, estrellas4: nat, estrellas3: nat, estrellas2: nat, estrellas1: nat)

  function Rating(r: Review): int
  {
    r.calificacion
  }

  /** The reviews rated exactly `k`. */
  function Stars(k: int): Review -> bool
  {
    (r: Review) => r.calificacion == k
  }

  /** The reviews rated outside 1..5. */
  function OffScale(): Review -> bool
  {
    (r: Review) => !(1 <= r.calificacion <= 5)
  }

  /** `calculateStats`: no statistics for no reviews. */
  function CalculateStats(resenas: seq<Review>): (r: Option<Stats>)
    ensures r.None? <==> resenas == []
    ensures r.Some? ==> r.value.totalResenas == |resenas| && r.value.sumaCalificaciones == Sum(resenas, Rating)
  {
    if resenas == [] then None
    else Some(Stats(Sum(resenas, Rating), |resenas|,
                    Count(resenas, Stars(5)), Count(resenas, Stars(4)), Count(resenas, Stars(3)),
                    Count(resenas, Stars(2)), Count(resenas, Stars(1))))
  }

  /** Every review is counted under exactly one star level or is off the scale. */
  lemma {:induction false} StarCountsPartition(s: seq<Review>)
    ensures Count(s, Stars(5)) + Count(s, Stars(4)) + Count(s, Stars(3)) + Count(s, Stars(2))
            + Count(s, Stars(1)) + Count(s, OffScale()) == |s|
  {
    if s != [] {
      StarCountsPartition(s[1..]);
    }
  }

  /** With every rating in 1..5, the five star counts add up to the number of reviews. */
  lemma DistributionSumsToTotal(resenas: seq<Review>)
    requires resenas != []
    requires forall i :: 0 <= i < |resenas| ==> 1 <= resenas[i].calificacion <= 5
    ensures var st := CalculateStats(resenas).value;
      st.estrellas5 + st.estrellas4 + st.estrellas3 + st.estrellas2 + st.estrellas1 == st.totalResenas
  {
    StarCountsPartition(resenas);
    CountZero(resenas, OffScale());
  }

  /**
   * `getStarCount`: the count stored for `stars` stars; 0 without statistics
   * or for a level the distribution does not have.
   */
  function GetStarCount(stats: Option<Stats>, stars: int): (r: nat)
    ensures stats.None? || !(1 <= stars <= 5) ==> r == 0
  {
    if stats.None? then 0
    else match stars
      case 5 => stats.value.estrellas5
      case 4 => stats.value.estrellas4
      case 3 => stats.value.estrellas3
      case 2 => stats.value.estrellas2
      case 1 => stats.value.estrellas1
      case _ => 0
  }

  /** The count shown for a star level is the number of reviews with that rating. */
  lemma StarCountIsCount(resenas: seq<Review>, k: int)
    requires 1 <= k <= 5
    ensures GetStarCount(CalculateStats(resenas), k) == Count(resenas, Stars(k))
  {
  }

  /**
   * A review put at the front adds one to the total, its rating to the sum,
   * and one to its own star level only.
   */
  lemma PrependReview(r: Review, resenas: seq<Review>, k: int)
    requires 1 <= k <= 5
    ensures var st := CalculateStats([r] + resenas).value;
      && st.totalResenas == |resenas| + 1
      && st.sumaCalificaciones == r.calificacion + Sum(resenas, Rating)
      && GetStarCount(Some(st), k)
         == GetStarCount(CalculateStats(resenas), k) + (if r.calificacion == k then 1 else 0)
  {
    var s := [r] + resenas;
    assert s[0] == r && s[1..] == resenas;
    assert Count(s, Stars(k)) == (if r.calificacion == k then 1 else 0) + Count(resenas, Stars(k));
    StarCountIsCount(s, k);
    StarCountIsCount(resenas, k);
  }

  /** `getStarsArray`: five flags, the first `rating` of them set. */
  function StarsArray(rating: int): (r: seq<bool>)
    ensures |r| == 5
  {
    seq(5, i requires 0 <= i < 5 => i < rating)
  }

  predicate Filled(b: bool)
  {
    b
  }

  /** Flags set exactly on a prefix of length `k` count `k`, clipped to the length. */
  lemma {:induction false} CountLeadingFlags(s: seq<bool>, k: int)
    requires forall i :: 0 <= i < |s| ==> (s[i] <==> i < k)
    ensures Count(s, Filled) == if k < 0 then 0 else if k > |s| then |s| else k
  {
    if s != [] {
      assert forall i :: 0 <= i < |s[1..]| ==> (s[1..][i] <==> i < k - 1);
      CountLeadingFlags(s[1..], k - 1);
    }
  }

  /** The star row of a rating shows the rating clipped to 0..5 filled stars, filled ones first. */
  lemma StarsArrayFilled(rating: int)
    ensures Count(StarsArray(rating), Filled) == if rating < 0 then 0 else if rating > 5 then 5 else rating
    ensures forall i, j :: 0 <= i < j < 5 && StarsArray(rating)[j] ==> StarsArray(rating)[i]
  {
    CountLeadingFlags(StarsArray(rating), rating);
  }

  /** The author's two names, when the review carries both. */
  predicate HasAuthorNames(resena: Review)
  {
    resena.usuario.Some? && resena.usuario.value.nombre != [] && resena.usuario.value.apellido != []
  }

  /**
   * `getUserInitials`: the upper-cased first letters of the author's names,
   * else of the logged-in user's names, else "U".
   */
  function GetUserInitials(resena: Review, currentUser: Option<CurrentUser>): (r: string)
    ensures |r| <= 2
    ensures Upper(r) == r
    ensures HasAuthorNames(resena) ==>
      r == [UpperChar(resena.usuario.value.nombre[0]), UpperChar(resena.usuario.value.apellido[0])]
    ensures !HasAuthorNames(resena) && currentUser.Some? ==>
      r == (if currentUser.value.nombre == [] then [] else [UpperChar(currentUser.value.nombre[0])])
         + (if currentUser.value.apellido == [] then [] else [UpperChar(currentUser.value.apellido[0])])
    ensures !HasAuthorNames(resena) && currentUser.None? ==> r == "U"
  {
    if HasAuthorNames(resena) then
      Upper(FirstChar(resena.usuario.value.nombre) + FirstChar(resena.usuario.value.apellido))
    else if currentUser.Some? then
      UpperIdempotent(FirstChar(currentUser.value.nombre) + FirstChar(currentUser.value.apellido));
      Upper(FirstChar(currentUser.value.nombre) + FirstChar(currentUser.value.apellido))
    else "U"
  }

  /** What the page sends to create a review. */
  datatype CreateResenaDto = CreateResenaDto(idProducto: int, idUsuario: int, calificacion: int, comentario: string)

  /**
   * The created review with the logged-in user filled in when the answer has no
   * author name, and `now` as the date when it has no date.
   */
  function Completed(resena: Review, user: CurrentUser, now: string): (r: Review)
    ensures r.id == resena.id && r.idProducto == resena.idProducto
    ensures r.calificacion == resena.calificacion && r.comentario == resena.comentario
    ensures resena.usuario.None? || resena.usuario.value.nombre == [] ==>
      r.usuario == Some(ReviewUser(user.id, user.nombre, user.apellido))
    ensures resena.usuario.Some? && resena.usuario.value.nombre != [] ==> r.usuario == resena.usuario
    ensures resena.fechaCreacion == [] ==> r.fechaCreacion == now
    ensures resena.fechaCreacion != [] ==> r.fechaCreacion == resena.fechaCreacion
    ensures (r.usuario.Some? && r.usuario.value.nombre != []) || user.nombre == []
  {
    var withUser :=
      if resena.usuario.None? || resena.usuario.value.nombre == [] then
        resena.(usuario := Some(ReviewUser(user.id, user.nombre, user.apellido)))
      else resena;
    if withUser.fechaCreacion == [] then withUser.(fechaCreacion := now) else withUser
  }

  /** The review list of one product and the state of its form. */
  class ReviewSection {
    const productId: int
    var resenas: seq<Review>
    var stats: Option<Stats>
    var showForm: bool
    var submitting: bool

    /** The statistics always describe the list on screen. */
    ghost predicate Valid()
      reads this
    {
      stats == CalculateStats(resenas)
    }

    constructor (productId: int)
      ensures Valid() && this.productId == productId && resenas == [] && !showForm && !submitting
    {
      this.productId := productId;
      resenas := [];
      stats := None;
      showForm := false;
      submitting := false;
    }

    /** `loadResenas`: a loaded list replaces the old one; a failed load keeps it. */
    method LoadResenas(loaded: Option<seq<Review>>)
      requires Valid()
      modifies this
      ensures Valid() && showForm == old(showForm) && submitting == old(submitting)
      ensures resenas == if loaded.Some? then loaded.value else old(resenas)
    {
      if loaded.Some? {
        resenas := loaded.value;
        stats := CalculateStats(resenas);
      }
    }

    /** `toggleForm`: only a logged-in user opens or closes the form. */
    method ToggleForm(loggedIn: bool)
      requires Valid()
      modifies this
      ensures Valid() && resenas == old(resenas) && submitting == old(submitting)
      ensures showForm == (if loggedIn then !old(showForm) else old(showForm))
    {
      if loggedIn {
        showForm := !showForm;
      }
    }

    /**
     * `submitReview`: nothing is sent for an invalid form or without a user.
     * Otherwise the review is sent; the backend's answer (`created`, absent on
     * an error) is completed, put first, and the statistics are recomputed.
     */
    method SubmitReview(formValid: bool, currentUser: Option<CurrentUser>, calificacion: int, comentario: string,
                        created: Option<Review>, now: string)
      returns (request: Option<CreateResenaDto>)
      requires Valid()
      modifies this
      ensures Valid()
      ensures !formValid || currentUser.None? ==>
        request.None? && resenas == old(resenas) && showForm == old(showForm) && submitting == old(submitting)
      ensures formValid && currentUser.Some? ==>
        && request == Some(CreateResenaDto(productId, currentUser.value.id, calificacion, comentario))
        && !submitting
        && (created.None? ==> resenas == old(resenas) && showForm == old(showForm))
        && (created.Some? ==>
              resenas == [Completed(created.value, currentUser.value, now)] + old(resenas) && !showForm)
    {
      if !formValid || currentUser.None? {
        return None;
      }
      submitting := true;
      request := Some(CreateResenaDto(productId, currentUser.value.id, calificacion, comentario));
      if created.Some? {
        resenas := [Completed(created.value, currentUser.value, now)] + resenas;
        stats := CalculateStats(resenas);
        showForm := false;
      }
      submitting := false;
    }
  }
}
