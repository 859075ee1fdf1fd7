/** The relational store and the SMS provider as objects whose state the
    routes change in place. `Db` holds the tables; every write the routes
    issue is one of its methods. `Gateway` stands for the provider client
    (`twilio(...).messages.create`): it records each request it is given and
    answers with the reply the environment chose. */
module Database {
  import opened Base
  import opened Domain

  /** A request handed to the provider. */
  datatype SmsRequest = SmsRequest(to: string, from: string, body: string)

  /** What the provider answered: a created message (its `sid` may be absent) or a thrown error
      (its `message` may be absent). */
  datatype ProviderReply = Delivered(sid: Option<string>) | Rejected(message: Option<string>)

  class Db {
    var enrollments: map<string, Enrollment>
    var steps: seq<SequenceStep>
    var properties: map<string, PropertyRow>
    var messages: seq<MessageRow>

    ghost predicate Valid()
      reads this
    {
      KeyedById(enrollments)
    }

    constructor (enrollments: map<string, Enrollment>, steps: seq<SequenceStep>,
                 properties: map<string, PropertyRow>, messages: seq<MessageRow>)
      requires KeyedById(enrollments)
      ensures Valid()
      ensures this.enrollments == enrollments && this.steps == steps
      ensures this.properties == properties && this.messages == messages
    {
      this.enrollments := enrollments;
      this.steps := steps;
      this.properties := properties;
      this.messages := messages;
    }

    /** `update(patch).eq("id", id)`: changes the row with that id, if there is one, and nothing else. */
    method UpdateEnrollment(id: string, patch: Patch)
      requires Valid()
      modifies this
      ensures Valid()
      ensures enrollments == if id in old(enrollments)
                             then old(enrollments)[id := Apply(patch, old(enrollments)[id])]
                             else old(enrollments)
      ensures steps == old(steps) && properties == old(properties) && messages == old(messages)
    {
      if id in enrollments {
        enrollments := enrollments[id := Apply(patch, enrollments[id])];
      }
    }

    /** `insert(row)` into `sms_sequence_enrollments`; refused when the id is taken. */
    method InsertEnrollment(e: Enrollment) returns (ok: bool)
      requires Valid()
      modifies this
      ensures Valid()
      ensures ok == (e.id !in old(enrollments))
      ensures enrollments == if ok then old(enrollments)[e.id := e] else old(enrollments)
      ensures steps == old(steps) && properties == old(properties) && messages == old(messages)
    {
      ok := e.id !in enrollments;
      if ok {
        enrollments := enrollments[e.id := e];
      }
    }

    /** `delete().eq("id", id).eq("user_id", userId)`. */
    method DeleteEnrollment(id: string, userId: string)
      requires Valid()
      modifies this
      ensures Valid()
      ensures enrollments == if id in old(enrollments) && old(enrollments)[id].userId == Some(userId)
                             then old(enrollments) - {id}
                             else old(enrollments)
      ensures steps == old(steps) && properties == old(properties) && messages == old(messages)
    {
      if id in enrollments && enrollments[id].userId == Some(userId) {
        enrollments := enrollments - {id};
      }
    }

    /** `update({ lead_stage: stage }).eq("id", id)` on `properties`. */
    method UpdateLeadStage(id: string, stage: string)
      modifies this
      ensures properties == if id in old(properties)
                            then old(properties)[id := old(properties)[id].(leadStage := Some(stage))]
                            else old(properties)
      ensures enrollments == old(enrollments) && steps == old(steps) && messages == old(messages)
    {
      if id in properties {
        properties := properties[id := properties[id].(leadStage := Some(stage))];
      }
    }

    /** `insert(row)` into the append-only `property_sms_messages`. */
    method InsertMessage(row: MessageRow)
      modifies this
      ensures messages == old(messages) + [row]
      ensures enrollments == old(enrollments) && steps == old(steps) && properties == old(properties)
    {
      messages := messages + [row];
    }
  }

  class Gateway {
    var requests: seq<SmsRequest>

    constructor ()
      ensures requests == []
    {
      requests := [];
    }

    /** `client.messages.create({ to, from, body })`: one request, answered with `reply`. */
    method Create(req: SmsRequest, reply: ProviderReply) returns (r: ProviderReply)
      modifies this
      ensures requests == old(requests) + [req]
      ensures r == reply
    {
      requests := requests + [req];
      r := reply;
    }
  }
}
