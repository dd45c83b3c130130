/**
 * The fixed challenge catalog, the day grid of the home screen and the popup
 * title built from them.
 */
module Catalog {
  import opened Wrappers
  import opened Decimal

  /** The catalog: 29 texts, the one for day `d` at index `d - 1`. */
  const Challenges: seq<string> := [
    "Compliment a stranger on their outfit",
    "Ask a stranger for directions to a place you already know",
    "Strike up a conversation with someone waiting in line",
    "Participate in group activities that involve collaboration and interaction",
    "Share your thoughts and ideas in a group discussion",
    "Attend a social event and introduce yourself to someone new",
    "Express your opinion on a topic during a meeting",
    "Invite someone to join you for a meal or coffee",
    "Offer help to someone in need without expecting anything in return",
    "Apologize to someone you may have wronged or hurt",
    "Engage in a physical activity or sport with others",
    "Start a conversation with a coworker you haven't talked to much",
    "Visit a local place or event and interact with people there",
    "Attend a networking event and make meaningful connections",
    "Join a club or group with shared interests",
    "Take on a leadership role in a team project or activity",
    "Organize a small get-together with friends or colleagues",
    "Initiate a conversation with someone you admire",
    "Collaborate on a creative project with others",
    "Share a personal story or experience with someone",
    "Express gratitude to someone who has made a positive impact",
    "Attend a workshop or seminar and actively participate",
    "Join an online community and engage in discussions",
    "Take on a challenge outside your comfort zone",
    "Host a gathering or party for friends and acquaintances",
    "Participate in a public speaking event or presentation",
    "Connect with someone from a different background or culture",
    "Volunteer for a cause or organization in your community",
    "Reflect on your fears and identify opportunities for growth"
  ]

  /** The days the home screen grid shows: `ForEach(1..<31)`. */
  predicate InGrid(day: int) {
    1 <= day < 31
  }

  /** The days the catalog has a text for. */
  predicate InCatalog(day: int) {
    1 <= day <= |Challenges|
  }

  /** The popup title, `"Challenge \(day): \(text)"`. */
  function Title(day: int, text: string): (t: string)
    ensures |t| == 12 + |Dec(day)| + |text|
    ensures t[..10] == "Challenge " && t[10..10 + |Dec(day)|] == Dec(day)
    ensures t[|t| - |text| - 2..] == ": " + text
  {
    var prefix := "Challenge " + Dec(day);
    var suffix := ": " + text;
    assert prefix[..10] == "Challenge " && prefix[10..] == Dec(day);
    var t := prefix + suffix;
    assert t[..|prefix|] == prefix && t[|prefix|..] == suffix;
    t
  }


  /** The lookup as the tap handler writes it, `challenges[day - 1]`: it traps outside the catalog. */
  function ChallengeAt(day: int): (text: string)
    requires InCatalog(day)
    ensures text in Challenges
  {
    Challenges[day - 1]
  }

  /** Day 30 is in the grid but the lookup above cannot serve it. */
  lemma GridDayThirtyOutOfRange()
    ensures InGrid(30) && !InCatalog(30)
    ensures |Challenges| == 29
  {
  }

  datatype CatalogError = OutOfRange(day: int)

  /** The lookup the rest of the model uses: a day outside the catalog is an error value, not a trap. */
  function Describe(day: int): (r: Result<string, CatalogError>)
    ensures r.Ok? <==> InCatalog(day)
    ensures r.Ok? ==> r.value in Challenges
    ensures r.Err? ==> r.error == OutOfRange(day)
  {
    if InCatalog(day) then Ok(Challenges[day - 1]) else Err(OutOfRange(day))
  }

  /**
   * A grid sized from the catalog (`1...challenges.count`) never asks for a
   * missing entry, and each described text is the catalog's entry for its day.
   */
  lemma CatalogGridDescribed(day: int)
    requires 1 <= day <= |Challenges|
    ensures Describe(day) == Ok(ChallengeAt(day))
  {
  }
}
