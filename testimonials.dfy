/** The testimonial routes (`/api/testimonials`): create, with its length
    check and the caller as author, and the newest-first listing. */
module Testimonials {
  import opened Common
  import opened Auth

  /** A testimonial as stored (the `Testimonial` schema). */
  datatype Testimonial = Testimonial(user: Id, message: string, createdAt: Time)

  /** The schema's `maxlength` on `message`. */
  const MaxMessage: nat := 1000

  predicate NewestFirstOrder(ts: seq<Testimonial>) {
    forall i, j :: 0 <= i < j < |ts| ==> ts[i].createdAt >= ts[j].createdAt
  }

  /** Place `t` into a newest-first list. */
  function Insert(t: Testimonial, sorted: seq<Testimonial>): (r: seq<Testimonial>)
    requires NewestFirstOrder(sorted)
    ensures NewestFirstOrder(r)
    ensures multiset(r) == multiset(sorted) + multiset{t}
  {
    if sorted == [] then [t]
    else if t.createdAt >= sorted[0].createdAt then [t] + sorted
    else
      var rest := Insert(t, sorted[1..]);
      InsertBehindHead(t, sorted, rest);
      [sorted[0]] + rest
  }

  /** When `t` is older than the head, the head followed by `t` inserted into
      the tail is still newest first and holds the same testimonials. */
  lemma InsertBehindHead(t: Testimonial, sorted: seq<Testimonial>, rest: seq<Testimonial>)
    requires sorted != [] && NewestFirstOrder(sorted) && t.createdAt < sorted[0].createdAt
    requires NewestFirstOrder(rest) && multiset(rest) == multiset(sorted[1..]) + multiset{t}
    ensures NewestFirstOrder([sorted[0]] + rest)
    ensures multiset([sorted[0]] + rest) == multiset(sorted) + multiset{t}
  {
    assert sorted == [sorted[0]] + sorted[1..];
    var r := [sorted[0]] + rest;
    forall j | 0 <= j < |rest| ensures rest[j].createdAt <= sorted[0].createdAt {
      assert rest[j] in multiset(rest);
      if rest[j] != t {
        assert rest[j] in multiset(sorted[1..]);
        var k :| 0 <= k < |sorted[1..]| && sorted[1..][k] == rest[j];
        assert sorted[k + 1] == rest[j];
      }
    }
    forall i, j | 0 <= i < j < |r| ensures r[i].createdAt >= r[j].createdAt {
      assert r[j] == rest[j - 1];
      if i > 0 {
        assert r[i] == rest[i - 1];
      }
    }
  }

  /** `sort({ createdAt: -1 })`: the same testimonials, newest first. */
  function NewestFirst(ts: seq<Testimonial>): (r: seq<Testimonial>)
    ensures NewestFirstOrder(r)
    ensures multiset(r) == multiset(ts)
  {
    if ts == [] then []
    else
      assert ts == [ts[0]] + ts[1..];
      Insert(ts[0], NewestFirst(ts[1..]))
  }

  /** Three thumbs-up emoji are three characters but six UTF-16 code units,
      so the create route accepts them as a message of at least 5. */
  lemma ThreeEmojiMessageIsLongEnough()
    ensures |"\U{1F44D}\U{1F44D}\U{1F44D}"| == 3
    ensures Utf16Length("\U{1F44D}\U{1F44D}\U{1F44D}") == 6
  {
    var s := "\U{1F44D}\U{1F44D}\U{1F44D}";
    assert s[..2][..1] == s[..1] && s[..1][..0] == [];
    assert s[..3][..2] == s[..2];
  }

  class TestimonialStore {
    var testimonials: seq<Testimonial>

    constructor ()
      ensures testimonials == []
    {
      testimonials := [];
    }

    /** GET /api/testimonials */
    function List(): (r: seq<Testimonial>)
      reads this
      ensures NewestFirstOrder(r) && multiset(r) == multiset(testimonials)
    {
      NewestFirst(testimonials)
    }

    /** POST /api/testimonials (behind `auth`). Both limits count UTF-16
        code units, as `message.length` and the schema's `maxlength` do: a
        message under 5 is refused; one over 1000 fails on save, which the
        handler answers with a 500. */
    method Create(access: Access, message: Option<string>, now: Time) returns (r: Response)
      requires FromAuth(access)
      modifies this
      ensures access.Denied? ==> r == Reply(access.status, access.message)
      ensures access.Granted? && (message.None? || Utf16Length(message.value) < 5)
              ==> r == Reply(400, "Message must be at least 5 characters")
      ensures access.Granted? && message.Some? && Utf16Length(message.value) > MaxMessage
              ==> r == Reply(500, "Failed to add testimonial")
      ensures r.Code() == 201 <==> access.Granted? && message.Some? && 5 <= Utf16Length(message.value) <= MaxMessage
      ensures r.Code() != 201 ==> testimonials == old(testimonials)
      ensures r.Code() == 201 ==> testimonials == old(testimonials) + [Testimonial(access.user.id, message.value, now)]
    {
      if access.Denied? {
        return Reply(access.status, access.message);
      }
      if message.None? || Utf16Length(message.value) < 5 {
        return Reply(400, "Message must be at least 5 characters");
      }
      if Utf16Length(message.value) > MaxMessage {
        return Reply(500, "Failed to add testimonial");
      }
      testimonials := testimonials + [Testimonial(access.user.id, message.value, now)];
      r := Reply(201, "");
    }
  }
}
