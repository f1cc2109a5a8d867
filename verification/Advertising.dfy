/** What to publish, given one slot that every replacement spends a command on. */
module Advertising {
  import opened Domain
  import Counterparties

  const MIN_LISTABLE: nat := 2
  const AD_TTL: nat := 8
  const RENEW_MARGIN: nat := 2
  const MIN_LIFETIME: nat := 3

  function Selling(surplus: Bundle): set<Resource> { set r | r in Counterparties.ALL && surplus.Get(r) >= MIN_LISTABLE }

  function Seeking(deficit: Bundle, critical: set<Resource>): set<Resource> {
    set r | r in Counterparties.ALL && (deficit.Get(r) > 0 || r in critical)
  }

  function Lifetime(tick: int, rules: Rules): int {
    Min(AD_TTL, Min(rules.maxPublicationTtl, rules.durationTicks - tick))
  }

  function DecideAdvertisement(
    surplus: Bundle, deficit: Bundle, critical: set<Resource>, current: Option<Advertisement>, tick: nat, rules: Rules): Option<Action>
  {
    var selling, seeking, ttl := Selling(surplus), Seeking(deficit, critical), Lifetime(tick, rules);
    var proposed := Advertise(selling, seeking, tick + ttl);
    if ttl <= 0 then None
    else if current.None? then (if selling == {} && seeking == {} then None else Some(proposed))
    else if critical - current.value.seeking != {} then Some(proposed)
    else if selling == {} && seeking == {} then Some(Withdraw(current.value.id))
    else if (selling != current.value.selling || seeking != current.value.seeking) && tick - current.value.createdTick >= MIN_LIFETIME then
      Some(proposed)
    else if current.value.expires - tick <= RENEW_MARGIN then Some(proposed)
    else None
  }

  /** Right after publishing, the same needs never spend a second command before renewal is due. */
  lemma PublishingSettles(
    surplus: Bundle, deficit: Bundle, critical: set<Resource>, current: Option<Advertisement>,
    tick: nat, rules: Rules, ad: Advertisement, later: nat)
    requires var a := DecideAdvertisement(surplus, deficit, critical, current, tick, rules);
             a.Some? && a.value.Advertise? && a.value.selling == ad.selling && a.value.seeking == ad.seeking && a.value.expires == ad.expires
    requires tick <= later && critical <= Counterparties.ALL
    ensures DecideAdvertisement(surplus, deficit, critical, Some(ad), later, rules).Some? <==>
              ad.expires - later <= RENEW_MARGIN && later < rules.durationTicks && rules.maxPublicationTtl > 0
  {
    assert Seeking(deficit, critical) >= critical;
  }

  /** A new critical need is never held back by the churn guard. */
  lemma CriticalNeedIsHeard(
    surplus: Bundle, deficit: Bundle, critical: set<Resource>, current: Advertisement, tick: nat, rules: Rules, r: Resource)
    requires r in critical && r !in current.seeking && tick < rules.durationTicks && rules.maxPublicationTtl > 0
    ensures var a := DecideAdvertisement(surplus, deficit, critical, Some(current), tick, rules);
            a.Some? && a.value.Advertise? && r in a.value.seeking && a.value.seeking >= Seeking(deficit, critical)
            && tick < a.value.expires <= Min(tick + rules.maxPublicationTtl, rules.durationTicks)
  {
    Counterparties.AllListed();
    assert r in critical - current.seeking;
  }
}
