/** The records shared by the components (src/types.ts). */
module Types {
  import opened Common

  /** The platform literal union of accounts and auto-forward rules. */
  datatype Platform = Facebook | Instagram | Twitter | TikTok

  /** The repeat-schedule literal union of a scheduled post. */
  datatype Repeat = NoRepeat | Daily | Weekly | Monthly

  /** The string literal a platform is written as in the application. */
  function PlatformKey(p: Platform): (s: string)
    ensures s in {"facebook", "instagram", "twitter", "tiktok"}
  {
    match p
    case Facebook => "facebook"
    case Instagram => "instagram"
    case Twitter => "twitter"
    case TikTok => "tiktok"
  }

  /** Distinct platforms are written as distinct literals. */
  lemma PlatformKeyInjective(p: Platform, q: Platform)
    requires PlatformKey(p) == PlatformKey(q)
    ensures p == q
  {
  }

  /** A post waiting for its time. `content`, `scheduledTime`, `platforms` and
      `attachQRCode` are always there; every other field is optional. */
  datatype ScheduledPost = ScheduledPost(
    content: string,
    scheduledTime: string,
    platforms: seq<string>,
    attachQRCode: bool,
    targetURL: Option<string>,
    useShortLink: Option<bool>,
    shortLinkAlias: Option<string>,
    repeatSchedule: Option<Repeat>,
    endDate: Option<string>,
    subscriptionURL: Option<string>,
    autoForward: Option<bool>,
    accountId: Option<string>)

  /** A short link and its click counter. */
  datatype ShortenedURL = ShortenedURL(
    originalURL: string,
    shortCode: string,
    createdAt: Time,
    clicks: nat)

  /** The connection status of one platform account. `accountId` is declared
      as always present, but the connection table never sets it, so it is
      optional here. */
  datatype SocialMediaAccount = SocialMediaAccount(
    platform: Platform,
    username: string,
    accountId: Option<string>,
    connected: bool,
    lastSync: Option<Time>)

  /** A standing instruction to mirror a source account to another platform. */
  datatype AutoForwardRule = AutoForwardRule(
    id: string,
    sourcePlatform: Platform,
    targetPlatform: Platform,
    sourceUsername: string,
    enabled: bool,
    createdAt: Time,
    lastForwarded: Option<Time>)
}
