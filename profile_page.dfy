/** The profile screen's header: the name and e-mail shown with their
    fallbacks, the avatar initials, and the tier and lifetime points. */
module ProfilePage {
  import opened Text
  import opened Domain
  import Lists

  /** `profile?.full_name || "Member"`. */
  function DisplayName(profile: Option<Profile>): (r: string)
    ensures r != []
    ensures profile.Some? && profile.value.fullName != "" ==> r == profile.value.fullName
    ensures profile.None? || profile.value.fullName == "" ==> r == "Member"
  {
    if profile.Some? && profile.value.fullName != "" then profile.value.fullName else "Member"
  }

  /** `profile?.email || user?.email || ""`: the first non-empty of the two. */
  function DisplayEmail(profile: Option<Profile>, user: Option<User>): (r: string)
    ensures profile.Some? && profile.value.email != "" ==> r == profile.value.email
    ensures (profile.None? || profile.value.email == "") && user.Some? && user.value.email.Some? ==>
              r == user.value.email.value
    ensures (profile.None? || profile.value.email == "") && (user.None? || user.value.email.None?) ==> r == ""
  {
    if profile.Some? && profile.value.email != "" then profile.value.email
    else if user.Some? && user.value.email.Some? then user.value.email.value
    else ""
  }

  /** `loyaltyAccount?.lifetime_points || 0`. */
  function LifetimePoints(account: Option<LoyaltyAccount>): (p: int)
    ensures account.None? ==> p == 0
    ensures account.Some? ==> p == account.value.lifetimePoints
  {
    if account.Some? then account.value.lifetimePoints else 0
  }

  predicate IsWord(piece: string) { piece != [] }

  /** The non-empty pieces of a split, in order. */
  function Words(pieces: seq<string>): (w: seq<string>)
    ensures forall k :: 0 <= k < |w| ==> w[k] != []
  {
    var w := Lists.Filter(pieces, IsWord);
    assert forall k :: 0 <= k < |w| ==> w[k] in w;
    w
  }

  /** `pieces.map(n => n[0]).join("")`: the first character of every
      non-empty piece, in order (`n[0]` of an empty piece is `undefined`,
      which `join("")` drops). */
  function Heads(pieces: seq<string>): (r: string)
    ensures |r| == |Words(pieces)|
    ensures forall k :: 0 <= k < |r| ==> r[k] == Words(pieces)[k][0]
  {
    if pieces == [] then []
    else
      var rest := Heads(pieces[1..]);
      if pieces[0] == [] then rest else [pieces[0][0]] + rest
  }

  /** `displayName.split(" ").map(n => n[0]).join("").toUpperCase().slice(0, 2)`:
      the upper-cased first characters of the first two words. */
  function Initials(name: string): (r: string)
    ensures var w := Words(SplitSpace(name));
      |r| == (if |w| < 2 then |w| else 2) && forall k :: 0 <= k < |r| ==> r[k] == UpperChar(w[k][0])
  {
    var h := Upper(Heads(SplitSpace(name)));
    if |h| <= 2 then h else h[..2]
  }

  /** The initials are the upper-cased first letters of the first two words. */
  lemma {:induction false} InitialsOfTwoWords(first: string, last: string)
    requires first != [] && last != [] && ' ' !in first && ' ' !in last
    ensures Initials(first + " " + last) == [UpperChar(first[0]), UpperChar(last[0])]
  {
    var tail := " " + last;
    assert first + " " + last == first + tail;
    SplitWordPrefix(last, "");
    assert last + "" == last;
    assert SplitSpace(tail) == ["", last] by {
      assert tail[1..] == last;
    }
    SplitWordPrefix(first, tail);
    assert first + "" == first;
    var pieces := SplitSpace(first + " " + last);
    assert pieces == [first, last];
    assert Words(pieces) == [first, last] by {
      assert pieces[1..] == [last] && pieces[1..][1..] == [];
    }
  }

  /** Without a usable name the avatar shows "M", from "Member". */
  lemma InitialsFallback(profile: Option<Profile>)
    requires profile.None? || profile.value.fullName == ""
    ensures Initials(DisplayName(profile)) == "M"
  {
    SplitWordPrefix("Member", "");
    assert "Member" + "" == "Member";
    assert SplitSpace("Member") == ["Member"];
    assert Heads(["Member"]) == ['M'];
  }

  /** The tier badge and the next step of the table. */
  function TierInfo(account: Option<LoyaltyAccount>): (r: (Tier, Option<TierStep>))
    ensures account.None? ==> r.0 == Silver && r.1 == Some(TierStep(Gold, 25000))
    ensures account.Some? ==> r.0 == account.value.currentTier
    ensures r.1 == NextTier(r.0)
    ensures r.1.None? <==> r.0 == Platinum
  {
    var t := TierOrDefault(account);
    (t, NextTier(t))
  }
}
