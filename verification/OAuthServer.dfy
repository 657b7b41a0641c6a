/** The authorization server's token families: rotation, reuse detection and revocation. */
module OAuthServer {
  import opened Clock

  type Token = nat
  type Family = nat

  const ACCESS_TOKEN_TTL: Time := HOUR
  const REFRESH_FAMILY_TTL: Time := 30 * DAY

  datatype Kind = AccessToken | RefreshToken
  datatype TokenInfo = TokenInfo(kind: Kind, family: Family, expires: Time, superseded: bool)
  datatype FamilyInfo = FamilyInfo(expires: Time, revoked: bool)

  /** `tokens` is every token ever issued; those in `swept` are gone from the server's tables. */
  datatype OAuth = OAuth(tokens: map<Token, TokenInfo>, families: map<Family, FamilyInfo>, swept: set<Token>) {
    predicate Valid() {
      (forall t <- tokens :: tokens[t].family in families) && forall t <- swept :: t in tokens
    }

    /** The server still finds this token. */
    predicate Known(t: Token) { t in tokens && t !in swept && tokens[t].family in families }

    predicate Revoked(f: Family) {
      f in families && families[f].revoked
    }

    /** The family is revoked, or its lifetime is over. */
    predicate Dead(f: Family, now: Time) { f in families && (families[f].revoked || families[f].expires <= now) }

    /** An access token may be swept once it expired or was revoked, a refresh token once its family expired. */
    predicate Sweepable(t: Token, now: Time) {
      && t in tokens && tokens[t].family in families
      && match tokens[t].kind
         case AccessToken => tokens[t].expires <= now || families[tokens[t].family].revoked
         case RefreshToken => families[tokens[t].family].expires <= now
    }

    /** Nothing was swept before its time. */
    predicate SweptInTime(now: Time) { forall t <- swept :: Sweepable(t, now) }

    function Sweep(gone: set<Token>): OAuth { this.(swept := swept + gone) }

    /** `t` is a token of this kind that the server issued in family `f`. */
    predicate Issued(t: Token, kind: Kind, f: Family) {
      t in tokens && tokens[t].kind == kind && tokens[t].family == f && f in families
    }

    /** The bearer check: an access token is accepted until it expires or its family is revoked. */
    predicate Accepts(t: Token, now: Time) {
      && Known(t) && tokens[t].kind == AccessToken
      && !families[tokens[t].family].revoked
      && now < tokens[t].expires && now < families[tokens[t].family].expires
    }

    function RevokeFamily(f: Family): OAuth
      requires f in families
    {
      this.(families := families[f := families[f].(revoked := true)])
    }

    /** Revocation by possession: any token the server knows kills its family, superseded or not. */
    function Revoke(t: Token): OAuth {
      if Known(t) then RevokeFamily(tokens[t].family) else this
    }

    /** A code exchange that opens a family with its first two tokens. */
    function Grant(f: Family, access: Token, refresh: Token, now: Time): OAuth
    {
      OAuth(tokens[access := TokenInfo(AccessToken, f, now + ACCESS_TOKEN_TTL, false)]
                  [refresh := TokenInfo(RefreshToken, f, now + REFRESH_FAMILY_TTL, false)],
            families[f := FamilyInfo(now + REFRESH_FAMILY_TTL, false)], swept)
    }

    /** A refresh: refused, refused with reuse detection, or rotated into two new tokens. */
    function RefreshWith(t: Token, access: Token, refresh: Token, now: Time): (OAuth, RefreshResult) {
      if !Known(t) || tokens[t].kind != RefreshToken then (this, InvalidGrant)
      else
        var info := tokens[t];
        var family := families[info.family];
        if family.revoked || info.expires <= now || family.expires <= now then (this, InvalidGrant)
        else if info.superseded then (RevokeFamily(info.family), InvalidGrant)
        else
          var longest := now + ACCESS_TOKEN_TTL;
          var accessExpires := if family.expires < longest then family.expires else longest;
          (this.(tokens := tokens[t := info.(superseded := true)]
                                 [access := TokenInfo(AccessToken, info.family, accessExpires, false)]
                                 [refresh := TokenInfo(RefreshToken, info.family, family.expires, false)]),
           Rotated)
    }
  }

  datatype RefreshResult = InvalidGrant | Rotated

  /** `b` is a later state than `a`: nothing is forgotten, no lifetime changes, no revocation is undone. */
  predicate Extends(a: OAuth, b: OAuth) {
    && (forall t <- a.tokens :: t in b.tokens && b.tokens[t].kind == a.tokens[t].kind
                                && b.tokens[t].family == a.tokens[t].family
                                && b.tokens[t].expires == a.tokens[t].expires)
    && (forall f <- a.families :: f in b.families && b.families[f].expires == a.families[f].expires
                                  && (a.families[f].revoked ==> b.families[f].revoked))
    && a.swept <= b.swept
  }

  /** Whatever rotations came after a token, presenting it for revocation kills its family for good. */
  lemma KnownTokenKillsItsFamily(a: OAuth, b: OAuth, t: Token, kind: Kind, f: Family)
    requires a.Issued(t, kind, f) && Extends(a, b) && b.Valid() && b.Known(t)
    ensures Extends(b, b.Revoke(t)) && b.Revoke(t).Valid() && b.Revoke(t).Revoked(f)
    ensures forall now :: !b.Revoke(t).Accepts(t, now)
  {
  }

  /** A refresh token is swept only when its family is dead anyway, so presenting it always leaves a dead family. */
  lemma AnyTokenKillsItsFamily(a: OAuth, b: OAuth, t: Token, f: Family, now: Time)
    requires a.Issued(t, RefreshToken, f) && Extends(a, b) && b.Valid() && b.SweptInTime(now)
    ensures Extends(b, b.Revoke(t)) && b.Revoke(t).Valid() && b.Revoke(t).SweptInTime(now) && b.Revoke(t).Dead(f, now)
    ensures now < b.families[f].expires ==> b.Revoke(t).Revoked(f)
  {
  }

  /** Refusing an unexpired refresh token means that its family is dead: revoked before, or revoked just now. */
  lemma RefusedUnexpiredMeansRevoked(o: OAuth, t: Token, f: Family, access: Token, refresh: Token, now: Time)
    requires o.Valid() && o.SweptInTime(now) && o.Issued(t, RefreshToken, f)
    requires now < o.tokens[t].expires && now < o.families[f].expires
    ensures o.RefreshWith(t, access, refresh, now).1 == InvalidGrant ==>
              o.RefreshWith(t, access, refresh, now).0.Revoked(f)
  {
  }

  /** Refusing an unexpired access token means the same. */
  lemma DeniedUnexpiredMeansRevoked(o: OAuth, t: Token, f: Family, now: Time)
    requires o.SweptInTime(now) && o.Issued(t, AccessToken, f) && now < o.tokens[t].expires
             && now < o.families[f].expires
    ensures !o.Accepts(t, now) <==> o.Revoked(f)
  {
  }

  /** Every refresh only extends the server's state, when the tokens it issues are new. */
  lemma RefreshExtends(o: OAuth, t: Token, access: Token, refresh: Token, now: Time)
    requires o.Valid() && access !in o.tokens && refresh !in o.tokens && access != refresh
    ensures o.RefreshWith(t, access, refresh, now).0.Valid()
    ensures Extends(o, o.RefreshWith(t, access, refresh, now).0)
    ensures o.SweptInTime(now) ==> o.RefreshWith(t, access, refresh, now).0.SweptInTime(now)
  {
  }

  /** So does opening a family. */
  lemma GrantExtends(o: OAuth, f: Family, access: Token, refresh: Token, now: Time)
    requires o.Valid() && f !in o.families && access !in o.tokens && refresh !in o.tokens && access != refresh
    ensures o.Grant(f, access, refresh, now).Valid() && Extends(o, o.Grant(f, access, refresh, now))
    ensures o.SweptInTime(now) ==> o.Grant(f, access, refresh, now).SweptInTime(now)
  {
  }

  /** And so does a sweep. */
  lemma SweepExtends(o: OAuth, gone: set<Token>, now: Time)
    requires o.Valid() && o.SweptInTime(now) && forall t <- gone :: o.Sweepable(t, now)
    ensures o.Sweep(gone).Valid() && Extends(o, o.Sweep(gone)) && o.Sweep(gone).SweptInTime(now)
  {
  }

  /** A new family lives thirty days, and its first access token an hour. Each token does only its own work. */
  lemma GrantLives(o: OAuth, f: Family, access: Token, refresh: Token, a: Token, r: Token, now: Time, at: Time)
    requires o.Valid() && f !in o.families && access !in o.tokens && refresh !in o.tokens && access != refresh
    ensures var granted := o.Grant(f, access, refresh, now);
            && (granted.Accepts(access, at) <==> at < now + 3_600_000_000_000) && !granted.Accepts(refresh, at)
            && (granted.RefreshWith(refresh, a, r, at).1.Rotated? <==> at < now + 2_592_000_000_000_000)
            && granted.RefreshWith(access, a, r, at).1.InvalidGrant?
  {
  }

  /**
   A rotation gives an access token for an hour, but never beyond its family, and a refresh token for as long as the
   family lives. The refresh token that was used is spent: using it again revokes the family.
   */
  lemma RotationLives(o: OAuth, t: Token, access: Token, refresh: Token, a: Token, r: Token, now: Time, at: Time)
    requires o.Valid() && access !in o.tokens && refresh !in o.tokens && access != refresh
    requires o.RefreshWith(t, access, refresh, now).1.Rotated?
    ensures var (next, _) := o.RefreshWith(t, access, refresh, now);
            var f := o.tokens[t].family;
            && (next.Accepts(access, at) <==> at < now + 3_600_000_000_000 && at < o.families[f].expires)
            && (next.RefreshWith(refresh, a, r, at).1.Rotated? <==> at < o.families[f].expires)
            && next.families == o.families && next.tokens[access].family == next.tokens[refresh].family == f
            && (at < o.tokens[t].expires && at < o.families[f].expires ==>
                  && next.RefreshWith(t, a, r, at).1.InvalidGrant?
                  && next.RefreshWith(t, a, r, at).0.Revoked(f))
  {
  }

  /**
   Only a token that is of no use any more may be swept: an access token that is refused, or a refresh token whose
   family's time is over. One that was merely used up stays. The server does not know a swept token, and forgets
   no other.
   */
  lemma SweepMeans(o: OAuth, t: Token, other: Token, access: Token, refresh: Token, now: Time)
    requires o.Known(t)
    ensures o.tokens[t].kind.AccessToken? && now < o.families[o.tokens[t].family].expires ==>
              (o.Sweepable(t, now) <==> !o.Accepts(t, now))
    ensures o.tokens[t].kind.RefreshToken? ==> (o.Sweepable(t, now) <==> o.families[o.tokens[t].family].expires <= now)
    ensures var swept := o.Sweep({t});
            && !swept.Known(t) && !swept.Accepts(t, now) && swept.Revoke(t) == swept
            && swept.RefreshWith(t, access, refresh, now) == (swept, InvalidGrant)
            && (other != t ==> (swept.Known(other) <==> o.Known(other)))
            && swept.tokens == o.tokens && swept.families == o.families
  {
  }

  lemma ExtendsTransitive(a: OAuth, b: OAuth, c: OAuth)
    requires Extends(a, b) && Extends(b, c)
    ensures Extends(a, c)
  {
  }
}
