/** The board game of BoardGame.cs: validated fields, a paired player range, a derived party flag and a play counter. */
module BoardGames {
  import opened Results
  import opened Text
  import opened Decimals
  import opened Checks

  const MinPlayerCount := 1
  const MaxPlayerCount := 20

  /**
   * The board-game `RequireString`: `null` and all-white-space values are refused
   * first, then the trimmed value must have an allowed length.
   */
  function RequireString(value: Option<string>, minLen: nat, maxLen: nat, prop: Param): (r: Result<string>)
    ensures value.None? || AllWhiteSpace(value.value) ==> r == Err(Argument(prop))
    ensures r.Ok? <==> value.Some? && !AllWhiteSpace(value.value) && minLen <= Utf16Length(Trim(value.value)) <= maxLen
    ensures value.Some? && !AllWhiteSpace(value.value) && r.Err? ==> r.error == ArgumentOutOfRange(prop)
    ensures r.Ok? ==> r.value == Trim(value.value) && IsTrimmed(r.value) && r.value != []
  {
    match value
    case None => Err(Argument(prop))
    case Some(s) =>
      if AllWhiteSpace(s) then Err(Argument(prop))
      else
        AllWhiteSpaceIffTrimEmpty(s);
        var trimmed := Trim(s);
        if Utf16Length(trimmed) < minLen || Utf16Length(trimmed) > maxLen then Err(ArgumentOutOfRange(prop)) else Ok(trimmed)
  }

  /** A padded non-blank value of allowed length comes back as its trimmed core. */
  lemma RequireStringOfPadded(a: string, m: string, b: string, minLen: nat, maxLen: nat, prop: Param)
    requires AllWhiteSpace(a) && AllWhiteSpace(b) && IsTrimmed(m) && m != [] && minLen <= Utf16Length(m) <= maxLen
    ensures RequireString(Some(a + m + b), minLen, maxLen, prop) == Ok(m)
  {
    TrimOfPadded(a, m, b);
    AllWhiteSpaceIffTrimEmpty(a + m + b);
  }

  /** A stored title or genre: trimmed, with a `Length` in 2..`maxLen` UTF-16 code units. */
  predicate TextOk(s: string, maxLen: nat) {
    2 <= Utf16Length(s) <= maxLen && IsTrimmed(s)
  }

  class BoardGame {
    /** `Id`: fixed at construction. */
    const id: nat
    var title: string
    var genre: string
    var minPlayers: int
    var maxPlayers: int
    var durationMinutes: int
    var minAge: int
    /** The price exactly as set: unlike the product price it is not rounded. */
    var price: Decimal
    /** `Publisher`: an unvalidated auto-property that may be null. */
    var publisher: Option<string>
    var timesPlayed: Int32

    ghost predicate Valid()
      reads this
    {
      && TextOk(title, 60)
      && TextOk(genre, 40)
      && MinPlayerCount <= minPlayers <= maxPlayers <= MaxPlayerCount
      && 5 <= durationMinutes <= 600
      && 3 <= minAge <= 21
      && InRange(price, 0, 10000)
    }

    /** `IsPartyGame`: derived from the current fields, never stored. */
    predicate IsPartyGame()
      reads this
    {
      maxPlayers >= 6 && durationMinutes <= 45
    }

    constructor (id: nat)
      ensures this.id == id
      ensures title == "Без назви" && genre == "Family"
      ensures minPlayers == 1 && maxPlayers == 4 && durationMinutes == 30 && minAge == 8
      ensures price == Decimal(0, 0) && publisher == None && timesPlayed == 0
      ensures Valid() && !IsPartyGame()
    {
      this.id := id;
      title := "Без назви";
      genre := "Family";
      minPlayers := 1;
      maxPlayers := 4;
      durationMinutes := 30;
      minAge := 8;
      price := Decimal(0, 0);
      publisher := None;
      timesPlayed := 0;
      new;
      assert !IsWhiteSpace(title[0]) && !IsWhiteSpace(title[|title| - 1]);
      assert !IsWhiteSpace(genre[0]) && !IsWhiteSpace(genre[|genre| - 1]);
    }

    /** The `Title` setter: the trimmed value is stored as is, without capitalisation. */
    method SetTitle(value: Option<string>) returns (r: Outcome)
      requires Valid()
      modifies this`title
      ensures Valid()
      ensures r.Committed? <==> value.Some? && !AllWhiteSpace(value.value) && 2 <= Utf16Length(Trim(value.value)) <= 60
      ensures r.Committed? ==> title == Trim(value.value) && r.changed == (old(title) != title)
      ensures r.Rejected? ==>
                && title == old(title)
                && r.error == if value.None? || AllWhiteSpace(value.value) then Argument(Title)
                              else ArgumentOutOfRange(Title)
    {
      var checked := RequireString(value, 2, 60, Title);
      if checked.Err? {
        return Rejected(checked.error);
      }
      var newVal := checked.value;
      var changed := title != newVal;
      title := newVal;
      r := Committed(changed);
    }

    /** The `Genre` setter: as `Title`, with at most 40 UTF-16 code units. */
    method SetGenre(value: Option<string>) returns (r: Outcome)
      requires Valid()
      modifies this`genre
      ensures Valid()
      ensures r.Committed? <==> value.Some? && !AllWhiteSpace(value.value) && 2 <= Utf16Length(Trim(value.value)) <= 40
      ensures r.Committed? ==> genre == Trim(value.value) && r.changed == (old(genre) != genre)
      ensures r.Rejected? ==>
                && genre == old(genre)
                && r.error == if value.None? || AllWhiteSpace(value.value) then Argument(Genre)
                              else ArgumentOutOfRange(Genre)
    {
      var checked := RequireString(value, 2, 40, Genre);
      if checked.Err? {
        return Rejected(checked.error);
      }
      var newVal := checked.value;
      var changed := genre != newVal;
      genre := newVal;
      r := Committed(changed);
    }

    /** The `MinPlayers` setter: in 1..20 and not above the current maximum. */
    method SetMinPlayers(value: Int32) returns (r: Outcome)
      requires Valid()
      modifies this`minPlayers
      ensures Valid()
      ensures r.Committed? <==> MinPlayerCount <= value <= MaxPlayerCount && value <= maxPlayers
      ensures r.Committed? ==> minPlayers == value && r.changed == (old(minPlayers) != value)
      ensures r.Rejected? ==> minPlayers == old(minPlayers) && r.error == ArgumentOutOfRange(MinPlayers)
      ensures IsPartyGame() == old(IsPartyGame())
    {
      var checked := RequireRange(value, MinPlayerCount, MaxPlayerCount, MinPlayers);
      if checked.Err? {
        return Rejected(checked.error);
      }
      var newVal := checked.value;
      if newVal > maxPlayers {
        return Rejected(ArgumentOutOfRange(MinPlayers));
      }
      var changed := minPlayers != newVal;
      minPlayers := newVal;
      r := Committed(changed);
    }

    /** The `MaxPlayers` setter: in 1..20 and not below the current minimum. */
    method SetMaxPlayers(value: Int32) returns (r: Outcome)
      requires Valid()
      modifies this`maxPlayers
      ensures Valid()
      ensures r.Committed? <==> MinPlayerCount <= value <= MaxPlayerCount && minPlayers <= value
      ensures r.Committed? ==>
                && maxPlayers == value && r.changed == (old(maxPlayers) != value)
                && (IsPartyGame() <==> value >= 6 && durationMinutes <= 45)
      ensures r.Rejected? ==> maxPlayers == old(maxPlayers) && r.error == ArgumentOutOfRange(MaxPlayers)
    {
      var checked := RequireRange(value, MinPlayerCount, MaxPlayerCount, MaxPlayers);
      if checked.Err? {
        return Rejected(checked.error);
      }
      var newVal := checked.value;
      if newVal < minPlayers {
        return Rejected(ArgumentOutOfRange(MaxPlayers));
      }
      var changed := maxPlayers != newVal;
      maxPlayers := newVal;
      r := Committed(changed);
    }

    /** The `DurationMinutes` setter: 5..600 minutes. */
    method SetDurationMinutes(value: Int32) returns (r: Outcome)
      requires Valid()
      modifies this`durationMinutes
      ensures Valid()
      ensures r.Committed? <==> 5 <= value <= 600
      ensures r.Committed? ==>
                && durationMinutes == value && r.changed == (old(durationMinutes) != value)
                && (IsPartyGame() <==> maxPlayers >= 6 && value <= 45)
      ensures r.Rejected? ==>
                durationMinutes == old(durationMinutes) && r.error == ArgumentOutOfRange(DurationMinutes)
    {
      var checked := RequireRange(value, 5, 600, DurationMinutes);
      if checked.Err? {
        return Rejected(checked.error);
      }
      var newVal := checked.value;
      var changed := durationMinutes != newVal;
      durationMinutes := newVal;
      r := Committed(changed);
    }

    /** The `MinAge` setter: 3..21 years. */
    method SetMinAge(value: Int32) returns (r: Outcome)
      requires Valid()
      modifies this`minAge
      ensures Valid()
      ensures r.Committed? <==> 3 <= value <= 21
      ensures r.Committed? ==> minAge == value && r.changed == (old(minAge) != value)
      ensures r.Rejected? ==> minAge == old(minAge) && r.error == ArgumentOutOfRange(MinAge)
    {
      var checked := RequireRange(value, 3, 21, MinAge);
      if checked.Err? {
        return Rejected(checked.error);
      }
      var newVal := checked.value;
      var changed := minAge != newVal;
      minAge := newVal;
      r := Committed(changed);
    }

    /**
     * The `Price` setter: 0..10000, stored without rounding. The notification
     * compares the two prices formatted with two decimals.
     */
    method SetPrice(value: Decimal) returns (r: Outcome)
      requires Valid()
      modifies this`price
      ensures Valid()
      ensures r.Committed? <==> InRange(value, 0, 10000)
      ensures r.Committed? ==> price == value && r.changed == (ToCents(old(price)) != ToCents(value))
      ensures r.Rejected? ==> price == old(price) && r.error == ArgumentOutOfRange(Price)
    {
      var checked := RequireDecimalRange(value, 0, 10000, Price);
      if checked.Err? {
        return Rejected(checked.error);
      }
      var newVal := checked.value;
      var changed := ToCents(price) != ToCents(newVal);
      price := newVal;
      r := Committed(changed);
    }

    /** The `Publisher` auto-property: any value, `null` included. */
    method SetPublisher(value: Option<string>)
      requires Valid()
      modifies this`publisher
      ensures Valid()
      ensures publisher == value
    {
      publisher := value;
    }

    /** `PlayOnce`: one more play; no other field moves. */
    method PlayOnce()
      requires Valid()
      modifies this`timesPlayed
      ensures Valid()
      ensures IsPartyGame() == old(IsPartyGame())
      ensures timesPlayed == Increment(old(timesPlayed))
    {
      timesPlayed := Increment(timesPlayed);
    }
  }
}
