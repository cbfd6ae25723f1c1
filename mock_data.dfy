/**
 * The seed data (src/data/mockData.ts): the records the data service stores
 * on first start and the pages start from.
 */
module MockData {
  import opened Wrappers
  import opened Types

  const TodayTasks: seq<Task> := [
    Task("1", Email, "Follow-up on donation", "Emma Johnson", "d1", "09:00 AM", TaskStatus.Pending, "Spring Drive", "pb1", None),
    Task("2", Text, "Donation reminder", "Liam Smith", "d2", "10:00 AM", TaskStatus.Pending, "Spring Drive", "pb1", None),
    Task("3", Phone, "Thank you call", "Olivia Williams", "d3", "11:00 AM", InProgress, "Annual Gala", "pb2", None),
    Task("4", Email, "Campaign update", "Noah Brown", "d4", "01:00 PM", TaskStatus.Pending, "Spring Drive", "pb1", None),
    Task("5", Text, "Event invitation", "Ava Davis", "d5", "02:00 PM", TaskStatus.Pending, "Annual Gala", "pb2", None),
    Task("6", Phone, "Major donor outreach", "Ethan Miller", "d6", "03:00 PM", TaskStatus.Pending, "Capital Campaign", "pb3", None),
    Task("7", Email, "Impact report", "Sophia Wilson", "d7", "04:00 PM", TaskStatus.Pending, "Spring Drive", "pb1", None)
  ]

  const Donors: seq<Donor> := [
    Donor("d1", "Emma", "Johnson", "emma.j@email.com", "(555) 123-4567", "CA", "Los Angeles", 2500, "2025-01-15", DonorStatus.Active, ["major-donor", "spring-drive"], None, "2024-06-10"),
    Donor("d2", "Liam", "Smith", "liam.s@email.com", "(555) 234-5678", "NY", "New York", 850, "2025-01-10", DonorStatus.Active, ["recurring"], None, "2024-08-22"),
    Donor("d3", "Olivia", "Williams", "olivia.w@email.com", "(555) 345-6789", "TX", "Austin", 5200, "2025-01-18", DonorStatus.Active, ["major-donor", "vip"], None, "2023-11-05"),
    Donor("d4", "Noah", "Brown", "noah.b@email.com", "(555) 456-7890", "FL", "Miami", 320, "2024-12-20", DonorStatus.Active, ["new-donor"], None, "2024-10-15"),
    Donor("d5", "Ava", "Davis", "ava.d@email.com", "(555) 567-8901", "WA", "Seattle", 1500, "2025-01-08", DonorStatus.Active, ["recurring", "green-donor"], None, "2024-04-20"),
    Donor("d6", "Ethan", "Miller", "ethan.m@email.com", "(555) 678-9012", "IL", "Chicago", 8000, "2025-01-20", DonorStatus.Active, ["major-donor", "legacy"], None, "2023-01-10"),
    Donor("d7", "Sophia", "Wilson", "sophia.w@email.com", "(555) 789-0123", "CA", "San Francisco", 2100, "2025-01-12", DonorStatus.Active, ["recurring"], None, "2024-07-30"),
    Donor("d8", "Mason", "Taylor", "mason.t@email.com", "(555) 890-1234", "CO", "Denver", 150, "2024-11-25", Prospect, ["new-donor"], None, "2024-11-20"),
    Donor("d9", "Isabella", "Anderson", "isabella.a@email.com", "(555) 901-2345", "AZ", "Phoenix", 4200, "2025-01-05", DonorStatus.Active, ["major-donor"], None, "2023-09-15"),
    Donor("d10", "James", "Thomas", "james.t@email.com", "(555) 012-3456", "GA", "Atlanta", 680, "2024-12-15", DonorStatus.Inactive, [], None, "2024-05-18")
  ]

  const Campaigns: seq<Campaign> := [
    Campaign("c1", "Spring Drive 2025", "Annual spring fundraising campaign", "2025-03-01", "2025-05-31", 50000, 32500, 245, CampaignStatus.Active, "pb1"),
    Campaign("c2", "Annual Gala", "Black tie fundraising gala event", "2025-06-15", "2025-06-15", 100000, 78000, 156, CampaignStatus.Active, "pb2"),
    Campaign("c3", "Capital Campaign", "Building expansion fund", "2025-01-01", "2025-12-31", 500000, 185000, 89, CampaignStatus.Active, "pb3"),
    Campaign("c4", "Holiday Appeal 2024", "Year-end giving campaign", "2024-11-15", "2024-12-31", 75000, 82000, 412, CampaignStatus.Completed, "pb1"),
    Campaign("c5", "Emergency Fund", "Immediate needs fund", "2025-02-01", "2025-04-30", 25000, 12000, 78, CampaignStatus.Active, "pb2")
  ]

  const Playbooks: seq<Playbook> := [
    Playbook("pb1", "Standard Outreach", "Multi-channel outreach for general donors",
      [ PlaybookStep("s1", 1, Email, "Initial Email", "Send campaign introduction email", Some("Hi {{firstName}}, join our Spring Drive..."), 0),
        PlaybookStep("s2", 2, Text, "Follow-up Text", "Quick reminder SMS", Some("Hey {{firstName}}, just a friendly reminder..."), 2),
        PlaybookStep("s3", 3, Email, "Personal Email", "Personal follow-up from team member", Some("Hi {{firstName}}, I wanted to reach out personally..."), 4),
        PlaybookStep("s4", 4, Phone, "Phone Call", "Direct phone outreach", None, 7),
        PlaybookStep("s5", 5, Email, "Final Appeal", "Last chance email before campaign ends", Some("{{firstName}}, time is running out..."), 10) ],
      3, "2025-01-15", PlaybookMetrics(32.0, 8.5, 145000),
      [ PlaybookVersion(1, ["Initial playbook creation"], "2024-10-01", RateSnapshot(25.0, 6.0)),
        PlaybookVersion(2, ["Updated email template", "Added delay between steps"], "2024-11-15", RateSnapshot(29.0, 7.2)),
        PlaybookVersion(3, ["Optimized text message timing", "New phone script"], "2025-01-15", RateSnapshot(32.0, 8.5)) ]),
    Playbook("pb2", "Major Donor Cultivation", "Personal outreach for high-value donors",
      [ PlaybookStep("s1", 1, Email, "Personal Introduction", "Personalized email from executive director", None, 0),
        PlaybookStep("s2", 2, Phone, "Executive Call", "Direct call from leadership", None, 3),
        PlaybookStep("s3", 3, Email, "Impact Report", "Detailed impact metrics email", None, 7),
        PlaybookStep("s4", 4, Phone, "Meeting Request", "Schedule personal meeting", None, 14),
        PlaybookStep("s5", 5, Email, "Custom Proposal", "Personalized giving proposal", None, 21) ],
      2, "2025-01-10", PlaybookMetrics(68.0, 24.0, 320000),
      [ PlaybookVersion(1, ["Initial major donor playbook"], "2024-08-01", RateSnapshot(55.0, 18.0)),
        PlaybookVersion(2, ["Added impact report step", "Extended timeline"], "2025-01-10", RateSnapshot(68.0, 24.0)) ]),
    Playbook("pb3", "Quick Strike", "Fast-paced emergency fundraising",
      [ PlaybookStep("s1", 1, Text, "Urgent SMS Blast", "Quick text to all supporters", None, 0),
        PlaybookStep("s2", 2, Email, "Email Hour", "Mass email within 2 hours", None, 0),
        PlaybookStep("s3", 3, Phone, "Major Donor Calls", "Call top 20 donors immediately", None, 1),
        PlaybookStep("s4", 4, Text, "Reminder Text", "Follow-up text", None, 2),
        PlaybookStep("s5", 5, Email, "Final Push", "Final email with matching deadline", None, 3) ],
      1, "2024-12-01", PlaybookMetrics(45.0, 12.0, 85000),
      [ PlaybookVersion(1, ["Initial emergency playbook"], "2024-12-01", RateSnapshot(45.0, 12.0)) ])
  ]

  const Volunteers: seq<Volunteer> := [
    Volunteer("v1", "Alex", "Chen", "alex.c@email.com", "(555) 111-2222", VolunteerStatus.Active, 12, 45, "2024-03-15"),
    Volunteer("v2", "Jordan", "Lee", "jordan.l@email.com", "(555) 222-3333", VolunteerStatus.Active, 8, 32, "2024-06-20"),
    Volunteer("v3", "Casey", "Martinez", "casey.m@email.com", "(555) 333-4444", VolunteerStatus.Active, 15, 68, "2023-11-10"),
    Volunteer("v4", "Taylor", "Johnson", "taylor.j@email.com", "(555) 444-5555", VolunteerStatus.Inactive, 0, 120, "2023-05-22"),
    Volunteer("v5", "Morgan", "Davis", "morgan.d@email.com", "(555) 555-6666", VolunteerStatus.Active, 6, 28, "2024-09-08")
  ]

  const VolunteerTasks: seq<VolunteerTask> := [
    VolunteerTask("vt1", "v1", "d1", "Emma Johnson", Email, "2025-01-21", VolunteerTaskStatus.Pending, Some("Thank them for recent donation")),
    VolunteerTask("vt2", "v1", "d2", "Liam Smith", Text, "2025-01-21", VolunteerTaskStatus.Pending, None),
    VolunteerTask("vt3", "v2", "d3", "Olivia Williams", Phone, "2025-01-21", VolunteerTaskStatus.Completed, None),
    VolunteerTask("vt4", "v3", "d4", "Noah Brown", Email, "2025-01-22", VolunteerTaskStatus.Pending, None),
    VolunteerTask("vt5", "v5", "d5", "Ava Davis", Text, "2025-01-22", VolunteerTaskStatus.Pending, None)
  ]

  const RecentDonations: seq<Donation> := [
    Donation("don1", "d6", "Ethan Miller", 5000, "c3", "Capital Campaign", "2025-01-21T09:15:00", "IL"),
    Donation("don2", "d3", "Olivia Williams", 2500, "c2", "Annual Gala", "2025-01-21T09:32:00", "TX"),
    Donation("don3", "d1", "Emma Johnson", 500, "c1", "Spring Drive", "2025-01-21T10:45:00", "CA"),
    Donation("don4", "d9", "Isabella Anderson", 1000, "c3", "Capital Campaign", "2025-01-21T11:20:00", "AZ"),
    Donation("don5", "d5", "Ava Davis", 200, "c1", "Spring Drive", "2025-01-21T13:00:00", "WA"),
    Donation("don6", "d7", "Sophia Wilson", 350, "c5", "Emergency Fund", "2025-01-21T14:30:00", "CA"),
    Donation("don7", "d2", "Liam Smith", 100, "c1", "Spring Drive", "2025-01-21T15:45:00", "NY"),
    Donation("don8", "d8", "Mason Taylor", 150, "c5", "Emergency Fund", "2025-01-21T16:15:00", "CO")
  ]
}
