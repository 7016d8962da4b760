/** Mentor profiles and lounge categories (app/db/models/mentor.py). */
module MentorModel {
  import opened Common

  datatype MentorStatus = Pending | Approved | Disabled

  datatype Mentor = Mentor(
    id: int,
    userId: int,
    headline: Option<String>,
    bio: Option<String>,
    introVideoUrl: Option<String>,
    experienceYears: int,
    status: MentorStatus,
    createdAt: Time,
    updatedAt: Time)

  /** A row as inserted with the column defaults: status PENDING. */
  function NewMentor(id: int, userId: int, headline: Option<String>, bio: Option<String>,
                     introVideoUrl: Option<String>, experienceYears: int, now: Time): (m: Mentor)
    ensures m.status == Pending && !IsActive(m)
    ensures m.id == id && m.userId == userId && m.experienceYears == experienceYears
  {
    Mentor(id, userId, headline, bio, introVideoUrl, experienceYears, Pending, now, now)
  }

  /** `Mentor.is_active` */
  predicate IsActive(m: Mentor) { m.status == Approved }

  datatype Category = Category(id: int, name: String, slug: String)

  /** The UNIQUE constraint on `mentors.user_id`: one profile per user. */
  ghost predicate UniqueUserIds(ms: seq<Mentor>) {
    forall i, j :: 0 <= i < j < |ms| ==> ms[i].userId != ms[j].userId
  }

  /** The UNIQUE constraint on `categories.slug`. */
  ghost predicate UniqueSlugs(cs: seq<Category>) {
    forall i, j :: 0 <= i < j < |cs| ==> cs[i].slug != cs[j].slug
  }

  function FindMentor(ms: seq<Mentor>, id: int): (r: Option<nat>)
    ensures r.Some? ==> r.value < |ms| && ms[r.value].id == id
    ensures r.None? ==> forall m :: m in ms ==> m.id != id
  {
    FindFirst(ms, (m: Mentor) => m.id == id)
  }

  /** The mentor profile of a user (`user.mentor_profile`). */
  function FindMentorByUser(ms: seq<Mentor>, userId: int): (r: Option<nat>)
    ensures r.Some? ==> r.value < |ms| && ms[r.value].userId == userId
    ensures r.None? ==> forall m :: m in ms ==> m.userId != userId
  {
    FindFirst(ms, (m: Mentor) => m.userId == userId)
  }

  /** Appending a profile for a user who has none keeps user ids unique. */
  lemma {:induction false} AppendKeepsUniqueUserIds(ms: seq<Mentor>, m: Mentor)
    requires UniqueUserIds(ms)
    requires FindMentorByUser(ms, m.userId).None?
    ensures UniqueUserIds(ms + [m])
  {
    var ns := ms + [m];
    forall i, j | 0 <= i < j < |ns| ensures ns[i].userId != ns[j].userId {
      if j == |ms| {
        assert ns[i] in ms;
      }
    }
  }

  /** Under the uniqueness constraint a user's profile is determined by the user id. */
  lemma {:induction false} ProfileUnique(ms: seq<Mentor>, i: nat, userId: int)
    requires UniqueUserIds(ms) && i < |ms| && ms[i].userId == userId
    ensures FindMentorByUser(ms, userId) == Some(i)
  {
    assert ms[i] in ms;
    assert forall j :: 0 <= j < |ms| && j != i ==> ms[j].userId != userId by {
      forall j | 0 <= j < |ms| && j != i ensures ms[j].userId != userId {
        if j < i { assert ms[j].userId != ms[i].userId; } else { assert ms[i].userId != ms[j].userId; }
      }
    }
  }
}
