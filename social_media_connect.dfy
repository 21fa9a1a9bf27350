/** The account connection table (src/components/SocialMediaConnect.tsx). */
module SocialConnect {
  import opened Common
  import opened Types

  /** The table at start: Facebook, Instagram and Twitter, none connected. */
  const InitialAccounts := [
    SocialMediaAccount(Facebook, "", None, false, None),
    SocialMediaAccount(Instagram, "", None, false, None),
    SocialMediaAccount(Twitter, "", None, false, None)
  ]

  /** No platform has two rows. */
  predicate UniquePlatforms(accounts: seq<SocialMediaAccount>)
  {
    forall i, j :: 0 <= i < j < |accounts| ==> accounts[i].platform != accounts[j].platform
  }

  /** The starting table has one disconnected row per platform, in this order,
      with no username and no sync time. */
  lemma InitialAccountsShape()
    ensures |InitialAccounts| == 3 && UniquePlatforms(InitialAccounts)
    ensures InitialAccounts[0].platform == Facebook
    ensures InitialAccounts[1].platform == Instagram
    ensures InitialAccounts[2].platform == Twitter
    ensures forall a :: a in InitialAccounts ==> !a.connected && a.username == "" && a.lastSync == None
  {
  }

  /** The table after connecting `platform` as `username` at time `now`: that
      platform's rows take the username, become connected and record the sync
      time; every other row and every row's platform stay as they were. */
  function ConnectAccounts(accounts: seq<SocialMediaAccount>, platform: Platform, username: string, now: Time)
    : (r: seq<SocialMediaAccount>)
    ensures |r| == |accounts|
    ensures forall i :: 0 <= i < |accounts| ==> r[i].platform == accounts[i].platform
    ensures forall i :: 0 <= i < |accounts| && accounts[i].platform != platform ==> r[i] == accounts[i]
    ensures forall i :: 0 <= i < |accounts| && accounts[i].platform == platform ==>
              r[i].username == username && r[i].connected && r[i].lastSync == Some(now)
              && r[i].accountId == accounts[i].accountId
  {
    if accounts == [] then []
    else
      var a := accounts[0];
      [if a.platform == platform then a.(username := username, connected := true, lastSync := Some(now)) else a]
      + ConnectAccounts(accounts[1..], platform, username, now)
  }

  /** The table after disconnecting `platform`: that platform's rows become
      disconnected and lose their sync time but keep their username; every other
      row stays as it was. */
  function DisconnectAccounts(accounts: seq<SocialMediaAccount>, platform: Platform): (r: seq<SocialMediaAccount>)
    ensures |r| == |accounts|
    ensures forall i :: 0 <= i < |accounts| ==> r[i].platform == accounts[i].platform
    ensures forall i :: 0 <= i < |accounts| && accounts[i].platform != platform ==> r[i] == accounts[i]
    ensures forall i :: 0 <= i < |accounts| && accounts[i].platform == platform ==>
              !r[i].connected && r[i].lastSync == None
              && r[i].username == accounts[i].username && r[i].accountId == accounts[i].accountId
  {
    if accounts == [] then []
    else
      var a := accounts[0];
      [if a.platform == platform then a.(connected := false, lastSync := None) else a]
      + DisconnectAccounts(accounts[1..], platform)
  }

  /** Connecting cannot give a platform a second row. */
  lemma ConnectKeepsUniquePlatforms(accounts: seq<SocialMediaAccount>, platform: Platform,
                                    username: string, now: Time)
    requires UniquePlatforms(accounts)
    ensures UniquePlatforms(ConnectAccounts(accounts, platform, username, now))
  {
  }

  /** Disconnecting cannot give a platform a second row. */
  lemma DisconnectKeepsUniquePlatforms(accounts: seq<SocialMediaAccount>, platform: Platform)
    requires UniquePlatforms(accounts)
    ensures UniquePlatforms(DisconnectAccounts(accounts, platform))
  {
  }

  /** Connecting and then disconnecting a platform leaves its rows disconnected,
      without a sync time and with the username given at connection. */
  lemma ConnectThenDisconnect(accounts: seq<SocialMediaAccount>, platform: Platform, username: string, now: Time)
    ensures var r := DisconnectAccounts(ConnectAccounts(accounts, platform, username, now), platform);
            |r| == |accounts| &&
            forall i :: 0 <= i < |accounts| && accounts[i].platform == platform ==>
              !r[i].connected && r[i].lastSync == None && r[i].username == username
  {
  }

  /** The style classes of a platform card: Facebook and Twitter share the blue
      ones, Instagram has pink ones and every other value gets grey. */
  const BlueClasses := "bg-blue-50 border-blue-200"
  const PinkClasses := "bg-pink-50 border-pink-200"
  const GrayClasses := "bg-gray-50 border-gray-200"

  function GetPlatformColor(platform: string): (classes: string)
    ensures classes == BlueClasses <==> platform == "facebook" || platform == "twitter"
    ensures classes == PinkClasses <==> platform == "instagram"
    ensures classes == GrayClasses <==> platform !in {"facebook", "instagram", "twitter"}
  {
    if platform == "facebook" then BlueClasses
    else if platform == "instagram" then PinkClasses
    else if platform == "twitter" then BlueClasses
    else GrayClasses
  }

  /** The card colour of an account row: grey exactly for TikTok, the one
      platform the switch does not name. */
  lemma AccountPlatformColor(p: Platform)
    ensures GetPlatformColor(PlatformKey(p)) == GrayClasses <==> p == TikTok
    ensures p == Facebook || p == Twitter <==> GetPlatformColor(PlatformKey(p)) == BlueClasses
  {
  }

  /** The connection table component. */
  class SocialMediaConnect {
    var accounts: seq<SocialMediaAccount>

    ghost predicate Valid()
      reads this
    {
      UniquePlatforms(accounts)
    }

    constructor ()
      ensures Valid() && accounts == InitialAccounts
    {
      accounts := InitialAccounts;
    }

    /** The connect button; `answer` is what the username prompt returned
        (`None` when cancelled) and `now` the sync time. */
    method HandleConnect(platform: Platform, answer: Option<string>, now: Time)
      requires Valid()
      modifies this
      ensures Valid()
      ensures answer == None || answer == Some("") ==> accounts == old(accounts)
      ensures answer.Some? && answer.value != "" ==>
                accounts == ConnectAccounts(old(accounts), platform, answer.value, now)
    {
      if answer.Some? && answer.value != "" {
        ConnectKeepsUniquePlatforms(accounts, platform, answer.value, now);
        accounts := ConnectAccounts(accounts, platform, answer.value, now);
      }
    }

    /** The disconnect button; `confirmed` is the answer to the confirmation dialog. */
    method HandleDisconnect(platform: Platform, confirmed: bool)
      requires Valid()
      modifies this
      ensures Valid()
      ensures accounts == if confirmed then DisconnectAccounts(old(accounts), platform) else old(accounts)
    {
      if confirmed {
        DisconnectKeepsUniquePlatforms(accounts, platform);
        accounts := DisconnectAccounts(accounts, platform);
      }
    }
  }
}
